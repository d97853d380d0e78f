/** The deposit controller: the upload's image filter and size bound, the ordered
    checks of a deposit request and the record it creates, and the owner-scoped
    status lookup. */
module DepositRules {
  import opened Wrappers
  import opened Models
  import Js

  /** The upload size bound: 5 MiB. */
  const MaxUploadBytes: nat := 5 * 1024 * 1024

  /** The four alternatives of the filter's pattern. */
  const ImageWords: seq<string> := ["jpeg", "jpg", "png", "gif"]

  /** The pattern's test: unanchored, so any occurrence of an alternative matches. */
  predicate MatchesImageWord(s: string) {
    exists w :: w in ImageWords && Js.Includes(s, w)
  }

  /** The last path segment of a name. */
  function BaseName(name: string): (b: string)
    ensures '/' !in b
    ensures |b| <= |name| && b == name[|name| - |b|..]
  {
    match Js.IndexOf(name, '/')
    case None => name
    case Some(i) => BaseName(name[i + 1..])
  }

  /** Index of the last `c` in `s`, if any. */
  function LastIndexOf(s: string, c: char): (r: Option<nat>)
    ensures r.None? <==> c !in s
    ensures r.Some? ==> r.value < |s| && s[r.value] == c && c !in s[r.value + 1..]
  {
    if s == [] then None
    else if s[|s| - 1] == c then Some(|s| - 1)
    else
      assert s[..|s| - 1] + [s[|s| - 1]] == s;
      match LastIndexOf(s[..|s| - 1], c)
      case None => None
      case Some(i) =>
        assert s[i + 1..] == s[..|s| - 1][i + 1..] + [s[|s| - 1]];
        Some(i)
  }

  /** `path.extname`: from the last dot of the last segment to its end; empty when the
      segment has no dot, when its only leading part is that dot (".env"), and for
      the segment "..". */
  function ExtName(name: string): (ext: string)
    ensures ext == "" || ext[0] == '.'
    ensures '/' !in ext
  {
    var base := BaseName(name);
    match LastIndexOf(base, '.')
    case None => ""
    case Some(i) => if i == 0 || base == ".." then "" else base[i..]
  }

  /** The upload's file filter: the lower-cased extension and the mimetype, taken as it
      is, must both contain one of the four words. */
  predicate FileFilter(originalName: string, mimetype: string) {
    MatchesImageWord(Js.ToLower(ExtName(originalName))) && MatchesImageWord(mimetype)
  }

  /** A file as the browser sends it, with the name the storage gives it. */
  datatype UploadedFile = UploadedFile(originalName: string, mimetype: string, size: nat, fileName: string)

  /** The upload step: no file is no error; a file the filter refuses is the filter's
      error; a file over the bound is the size error. */
  function UploadError(file: Option<UploadedFile>): (err: Option<string>)
    ensures err == Some("Only image files are allowed!") <==>
      file.Some? && !FileFilter(file.value.originalName, file.value.mimetype)
    ensures err.None? <==>
      file.None? || (FileFilter(file.value.originalName, file.value.mimetype) && file.value.size <= MaxUploadBytes)
  {
    if file.None? then None
    else if !FileFilter(file.value.originalName, file.value.mimetype) then Some("Only image files are allowed!")
    else if file.value.size > MaxUploadBytes then Some("File too large")
    else None
  }

  datatype CreateReply =
    | UploadRejected(message: string)   // 400
    | InvalidAmount                     // 400
    | ProofRequired                     // 400
    | CreateFailed                      // the GoPay number column refuses null: 500
    | Created(deposit: Deposit)         // 201

  /** createDepositRequest: the upload's error first, then the amount, then the proof
      file, then the record, created pending with the stored file name as its proof. */
  function CreateDepositRequest(userId: int, nextId: int, amount: Option<real>, gopayNumber: Option<string>,
                                file: Option<UploadedFile>): (r: CreateReply)
    ensures r.UploadRejected? <==> UploadError(file).Some?
    ensures r.UploadRejected? ==> Some(r.message) == UploadError(file)
    ensures r == InvalidAmount <==> UploadError(file).None? && (amount.None? || amount.value <= 0.0)
    ensures r == ProofRequired <==> UploadError(file).None? && amount.Some? && amount.value > 0.0 && file.None?
    ensures r.Created? <==>
      UploadError(file).None? && amount.Some? && amount.value > 0.0 && file.Some? && gopayNumber.Some?
    ensures r.Created? ==>
      && r.deposit.status == Pending
      && r.deposit.id == nextId
      && r.deposit.userId == userId
      && r.deposit.gopayNumber == gopayNumber.value
      && r.deposit.amount == amount.value
      && r.deposit.proofImage == file.value.fileName
      && r.deposit.adminNotes.None? && r.deposit.verifiedBy.None?
  {
    match UploadError(file)
    case Some(message) => UploadRejected(message)
    case None =>
      if amount.None? || amount.value <= 0.0 then InvalidAmount
      else if file.None? then ProofRequired
      else if gopayNumber.None? then CreateFailed
      else Created(Deposit(nextId, userId, amount.value, gopayNumber.value, file.value.fileName, Pending, None, None))
  }

  /** getDepositStatus: the deposit with this id, but only when the caller owns it. */
  function GetDepositStatus(deposits: map<int, Deposit>, id: int, userId: int): (r: Option<Deposit>)
    ensures r.Some? <==> id in deposits && deposits[id].userId == userId
    ensures r.Some? ==> r.value == deposits[id] && r.value.userId == userId
  {
    if id in deposits && deposits[id].userId == userId then Some(deposits[id]) else None
  }

  lemma {:induction false} LastDotAfterStem(stem: string, ext: string)
    requires '.' !in ext
    ensures LastIndexOf(stem + "." + ext, '.') == Some(|stem|)
  {
    var name := stem + "." + ext;
    assert name[|stem|] == '.';
    assert name[|stem| + 1..] == ext;
  }

  /** Only the last extension counts: a name without '/' whose last dot follows a
      non-empty stem (which may hold dots of its own) has the text from that dot on
      as its extension. */
  lemma {:induction false} ExtNameOfStem(stem: string, ext: string)
    requires stem != [] && '/' !in stem && '/' !in ext && '.' !in ext
    requires stem + "." + ext != ".."
    ensures ExtName(stem + "." + ext) == "." + ext
  {
    var name := stem + "." + ext;
    assert BaseName(name) == name;
    LastDotAfterStem(stem, ext);
    assert name[|stem|..] == "." + ext;
  }

  /** A name whose only dot is its first character (".env") has no extension. */
  lemma {:induction false} ExtNameOfDotFile(rest: string)
    requires '/' !in rest && '.' !in rest
    ensures ExtName("." + rest) == ""
  {
    LastDotAfterStem("", rest);
    assert "" + "." + rest == "." + rest;
  }

  /** The pattern is unanchored: one of the words anywhere in the text matches. */
  lemma {:induction false} UnanchoredMatch(before: string, word: string, after: string)
    requires word in ImageWords
    ensures MatchesImageWord(before + word + after)
  {
    var s := before + word + after;
    assert s[|before|..|before| + |word|] == word;
    assert Js.OccursAt(s, word, |before|);
    Js.IncludesIff(s, word);
  }
}
