/**
 * The direct-message handlers of the server: paged history of the two-way conversation
 * between the caller and a peer, and the file-name rule applied to an upload.
 */
module MessagesController {
  import opened Common
  import opened ServerModels
  import History
  import ListOps
  import Text

  const BothIdsRequired := "Both user ID's are requried."
  const FileRequired := "File is required."
  const UploadRoot := "uploads/files/"

  /** A message sent either way between `a` and `b`. */
  predicate Between(m: StoredMessage, a: UserId, b: UserId) {
    (m.sender == a && m.recipient == b) || (m.sender == b && m.recipient == a)
  }

  function InConversation(a: UserId, b: UserId): StoredMessage -> bool {
    m => Between(m, a, b)
  }

  /** The `$or` query: every stored message between the two users, in store order. */
  function Conversation(store: seq<StoredMessage>, a: UserId, b: UserId): (h: seq<StoredMessage>)
    ensures forall i :: 0 <= i < |h| ==> h[i] in store && Between(h[i], a, b)
    ensures forall i :: 0 <= i < |store| && Between(store[i], a, b) ==> store[i] in h
    ensures ListOps.IsSubsequence(h, store)
  {
    ListOps.Filter(store, InConversation(a, b))
  }

  /** Both participants see the same conversation. */
  lemma ConversationSymmetric(store: seq<StoredMessage>, a: UserId, b: UserId)
    ensures Conversation(store, a, b) == Conversation(store, b, a)
  {
    ListOps.FilterAgrees(store, InConversation(a, b), InConversation(b, a));
  }

  /**
   * `getMessages`: 400 when either id is missing (""); otherwise 200 with the block of at
   * most `limit` messages just older than the `(page - 1) * limit` newest, oldest first,
   * `hasMore` against the size of the same conversation, page and limit defaulting to 1 and 20.
   */
  function GetMessages(store: seq<StoredMessage>, user1: string, user2: string, page: Option<nat>, limit: Option<nat>): (r: Reply<HistoryPage>)
    ensures user1 == "" || user2 == "" <==> r == Text(400, BothIdsRequired)
    ensures r.Json? ==>
      var p := History.OrDefault(page, History.DefaultPage);
      var n := History.OrDefault(limit, History.DefaultLimit);
      var skip := History.Skip(p, n);
      var h := Conversation(store, user1, user2);
      && r.status == 200
      && r.body.messages == h[History.Remaining(|h|, skip + n)..History.Remaining(|h|, skip)]
      && |r.body.messages| <= n
      && (r.body.hasMore <==> History.Remaining(|h|, skip + n) > 0)
      && r.body.currentPage == p
      && r.body.totalMessages == |h|
  {
    var p := History.OrDefault(page, History.DefaultPage);
    var n := History.OrDefault(limit, History.DefaultLimit);
    var skip := History.Skip(p, n);
    if user1 == "" || user2 == "" then Text(400, BothIdsRequired)
    else
      var h := Conversation(store, user1, user2);
      var messages := History.NewestPage(h, skip, n);
      History.HasMoreIffOlderRemain(h, skip, n);
      Json(200, HistoryPage(messages, History.HasMore(skip, |messages|, |h|), p, |h|))
  }

  /** The messages of pages `k, k - 1, ..., 1` of `getMessages`, concatenated in that order. */
  function PageWalk(store: seq<StoredMessage>, a: UserId, b: UserId, k: nat, limit: nat): seq<StoredMessage>
    requires a != "" && b != ""
  {
    if k == 0 then [] else GetMessages(store, a, b, Some(k), Some(limit)).body.messages + PageWalk(store, a, b, k - 1, limit)
  }

  /**
   * Fetching pages `k` down to 1 and prepending each older page rebuilds the whole
   * conversation oldest first, once enough pages are fetched.
   */
  lemma {:induction false} PagesRebuildConversation(store: seq<StoredMessage>, a: UserId, b: UserId, k: nat, limit: nat)
    requires a != "" && b != "" && limit >= 1
    ensures PageWalk(store, a, b, k, limit) == History.Walk(Conversation(store, a, b), k, limit)
    ensures k * limit >= |Conversation(store, a, b)| ==> PageWalk(store, a, b, k, limit) == Conversation(store, a, b)
  {
    var h := Conversation(store, a, b);
    if k > 0 {
      PagesRebuildConversation(store, a, b, k - 1, limit);
      PageOfConversation(store, a, b, k, limit);
    }
    if k * limit >= |h| {
      History.WalkRebuildsHistory(h, k, limit);
    }
  }

  /** Page `k` of `getMessages` with an explicit limit is that page of the conversation. */
  lemma PageOfConversation(store: seq<StoredMessage>, a: UserId, b: UserId, k: nat, limit: nat)
    requires a != "" && b != "" && k >= 1 && limit >= 1
    ensures GetMessages(store, a, b, Some(k), Some(limit)).body.messages
      == History.NewestPage(Conversation(store, a, b), History.Skip(k, limit), limit)
  {
  }

  /** Every page of an ascending store is in ascending timestamp order. */
  lemma PageAscending(store: seq<StoredMessage>, a: UserId, b: UserId, page: Option<nat>, limit: Option<nat>)
    requires History.Ascending(store, Time) && a != "" && b != ""
    ensures History.Ascending(GetMessages(store, a, b, page, limit).body.messages, Time)
  {
    History.FilterAscending(store, InConversation(a, b), Time);
    var h := Conversation(store, a, b);
    var p := History.OrDefault(page, History.DefaultPage);
    var n := History.OrDefault(limit, History.DefaultLimit);
    History.PageAscending(h, History.Skip(p, n), n, Time);
  }

  /**
   * The scan behind `replace(/\s+/g, "_")`: `inRun` says whether the previous character was
   * white space, so only the first character of each run emits an underscore.
   */
  function SanitizeFrom(s: string, inRun: bool): (r: string)
    ensures Text.NoWhitespace(r)
    ensures |r| <= |s|
    decreases |s|
  {
    if s == [] then []
    else if Text.IsWhitespace(s[0]) then
      var rest := SanitizeFrom(s[1..], true);
      if inRun then rest
      else
        assert forall i :: 1 <= i < |"_" + rest| ==> ("_" + rest)[i] == rest[i - 1];
        "_" + rest
    else
      var rest := SanitizeFrom(s[1..], false);
      assert forall i :: 1 <= i < |[s[0]] + rest| ==> ([s[0]] + rest)[i] == rest[i - 1];
      [s[0]] + rest
  }

  /** `originalname.replace(/\s+/g, "_")`: each run of white space becomes one underscore. */
  function Sanitize(s: string): (r: string)
    ensures Text.NoWhitespace(r)
    ensures |r| <= |s|
  {
    SanitizeFrom(s, false)
  }

  /** The scan emits only characters of its input and underscores. */
  lemma {:induction false} SanitizeFromChars(s: string, inRun: bool)
    ensures forall i :: 0 <= i < |SanitizeFrom(s, inRun)| ==>
      SanitizeFrom(s, inRun)[i] == '_' || SanitizeFrom(s, inRun)[i] in s
    decreases |s|
  {
    if s != [] {
      var next := Text.IsWhitespace(s[0]);
      SanitizeFromChars(s[1..], next);
      var r := SanitizeFrom(s, inRun);
      var rest := SanitizeFrom(s[1..], next);
      assert s == [s[0]] + s[1..];
      if !(next && inRun) {
        forall i | 1 <= i < |r| ensures r[i] == rest[i - 1] {
          assert r == [r[0]] + rest;
        }
      }
    }
  }

  /** The sanitised name keeps the original characters apart from the underscores it inserts. */
  lemma SanitizeChars(s: string)
    ensures forall i :: 0 <= i < |Sanitize(s)| ==> Sanitize(s)[i] == '_' || Sanitize(s)[i] in s
  {
    SanitizeFromChars(s, false);
  }

  /** Text without white space passes the scan unchanged. */
  lemma {:induction false} SanitizeFromKeepsClean(s: string, inRun: bool)
    requires Text.NoWhitespace(s)
    ensures SanitizeFrom(s, inRun) == s
    decreases |s|
  {
    if s != [] {
      SanitizeFromKeepsClean(s[1..], false);
    }
  }

  /** A name without white space is stored unchanged. */
  lemma SanitizeKeepsCleanName(s: string)
    requires Text.NoWhitespace(s)
    ensures Sanitize(s) == s
  {
    SanitizeFromKeepsClean(s, false);
  }

  lemma SanitizeIdempotent(s: string)
    ensures Sanitize(Sanitize(s)) == Sanitize(s)
  {
    SanitizeKeepsCleanName(Sanitize(s));
  }

  /**
   * The scan distributes over a split that follows a non-blank character: the second part is
   * then scanned outside a run (or in the original state when the first part is empty).
   */
  lemma {:induction false} SanitizeFromAppend(a: string, t: string, inRun: bool)
    requires a == [] || !Text.IsWhitespace(a[|a| - 1])
    ensures SanitizeFrom(a + t, inRun) == SanitizeFrom(a, inRun) + SanitizeFrom(t, inRun && a == [])
    decreases |a|
  {
    if a == [] {
      assert a + t == t;
    } else {
      var a' := a[1..];
      assert (a + t)[0] == a[0];
      assert (a + t)[1..] == a' + t;
      assert a' == [] || a'[|a'| - 1] == a[|a| - 1];
      SanitizeFromAppend(a', t, Text.IsWhitespace(a[0]));
    }
  }

  /** Sanitising distributes over a split that follows a non-blank character. */
  lemma SanitizeAppend(a: string, t: string)
    requires a == [] || !Text.IsWhitespace(a[|a| - 1])
    ensures Sanitize(a + t) == Sanitize(a) + Sanitize(t)
  {
    SanitizeFromAppend(a, t, false);
  }

  lemma TailWhitespace(w: string)
    requires w != [] && Text.AllWhitespace(w)
    ensures Text.AllWhitespace(w[1..])
  {
    forall i | 0 <= i < |w[1..]| ensures Text.IsWhitespace(w[1..][i]) {
      assert w[1..][i] == w[i + 1];
    }
  }

  /** Inside a run, further white space emits nothing. */
  lemma {:induction false} SanitizeFromSkipsRun(w: string, b: string)
    requires Text.AllWhitespace(w)
    ensures SanitizeFrom(w + b, true) == SanitizeFrom(b, true)
    decreases |w|
  {
    if w == [] {
      assert w + b == b;
    } else {
      assert (w + b)[0] == w[0];
      assert (w + b)[1..] == w[1..] + b;
      TailWhitespace(w);
      SanitizeFromSkipsRun(w[1..], b);
    }
  }

  /** A run of white space at the front of `w + b` becomes one underscore. */
  lemma SanitizeLeadingRun(w: string, b: string)
    requires w != [] && Text.AllWhitespace(w)
    requires b == [] || !Text.IsWhitespace(b[0])
    ensures Sanitize(w + b) == "_" + Sanitize(b)
  {
    assert (w + b)[0] == w[0];
    assert (w + b)[1..] == w[1..] + b;
    TailWhitespace(w);
    SanitizeFromSkipsRun(w[1..], b);
  }

  /**
   * A whole run of white space between two non-blank parts becomes exactly one underscore,
   * whatever its length.
   */
  lemma SanitizeRun(a: string, w: string, b: string)
    requires a == [] || !Text.IsWhitespace(a[|a| - 1])
    requires w != [] && Text.AllWhitespace(w)
    requires b == [] || !Text.IsWhitespace(b[0])
    ensures Sanitize(a + w + b) == Sanitize(a) + "_" + Sanitize(b)
  {
    var wb := w + b;
    assert a + w + b == a + wb;
    SanitizeAppend(a, wb);
    SanitizeLeadingRun(w, b);
  }

  /** The uploaded file as multer hands it over. */
  datatype UploadedFile = UploadedFile(originalName: string)

  function DecimalDigit(d: nat): (c: char)
    requires d < 10
    ensures '0' <= c <= '9' && c as int - '0' as int == d
  {
    "0123456789"[d]
  }

  /** The number a string of decimal digits denotes, most significant digit first. */
  function DigitsValue(s: string): int
  {
    if s == [] then 0 else DigitsValue(s[..|s| - 1]) * 10 + (s[|s| - 1] as int - '0' as int)
  }

  /**
   * The decimal text of a number, as a template literal renders `Date.now()`: digits only,
   * no leading zero, denoting `n`.
   */
  function Decimal(n: nat): (r: string)
    ensures r != [] && forall i :: 0 <= i < |r| ==> '0' <= r[i] <= '9'
    ensures |r| > 1 ==> r[0] != '0'
    ensures DigitsValue(r) == n
  {
    if n < 10 then
      var r := [DecimalDigit(n)];
      assert r[..0] == [];
      r
    else
      var prefix := Decimal(n / 10);
      var r := prefix + [DecimalDigit(n % 10)];
      assert r[..|r| - 1] == prefix;
      r
  }

  /**
   * `uploadFile`: 400 without a file; otherwise 200 with the path
   * `uploads/files/<date>/<sanitised name>`, whose last segment is the sanitised name.
   */
  function UploadFile(file: Option<UploadedFile>, date: nat): (r: Reply<string>)
    ensures file.None? <==> r == Text(400, FileRequired)
    ensures file.Some? ==> r.Json? && r.status == 200
    ensures file.Some? ==> r.body == UploadRoot + Decimal(date) + "/" + Sanitize(file.value.originalName)
    ensures file.Some? && '/' !in file.value.originalName ==>
      Text.LastSegment(r.body) == Sanitize(file.value.originalName) && Text.NoWhitespace(Text.LastSegment(r.body))
  {
    match file
    case None => Text(400, FileRequired)
    case Some(f) =>
      var name := Sanitize(f.originalName);
      if '/' !in f.originalName then
        SanitizeChars(f.originalName);
        assert '/' !in name;
        Text.LastSegmentAfterSlash(UploadRoot + Decimal(date), name);
        Json(200, UploadRoot + Decimal(date) + "/" + name)
      else
        Json(200, UploadRoot + Decimal(date) + "/" + name)
  }
}
