/**
 * The flight watch: the `flight_watch` table (app.py:213-223), subscribing
 * and cancelling (the webhook branches at app.py:1014-1028 and
 * app.py:1062-1077), the notification fan-out (`_fw_send_to_all`,
 * app.py:665-668) and the change-detection pass (`cron_flightwatch`,
 * app.py:1237-1266).
 *
 * The Aviationstack fetch, the snapshot hash and the message rendering are
 * parameters; sent WhatsApp messages are an outbox the store appends to.
 */
module FlightWatch {
  import opened Wrappers
  import opened Text
  import opened Snapshots
  import opened WatchCommands

  /** One `flight_watch` row; `lastSnapshot` is the value whose JSON text the row stores. */
  datatype WatchRow = WatchRow(
    id: nat, waid: string, flightIata: string, flightDate: Option<string>, provider: string,
    lastSnapshot: Option<Json>, lastHash: Option<string>, createdAt: string, updatedAt: string)

  const Provider: string := "aviationstack"

  /** One outbound WhatsApp message: the id handed to `send_whatsapp` and the text. */
  datatype Message = Message(to: string, body: string)

  // ---------------------------------------------------------------------
  // The table
  // ---------------------------------------------------------------------

  /** AUTOINCREMENT ids: increasing along the table and below the next id to hand out. */
  predicate WatchTableOk(rows: seq<WatchRow>, next: nat) {
    |rows| == 0 ||
    (var last := rows[|rows| - 1];
     last.id < next && WatchTableOk(rows[..|rows| - 1], last.id))
  }

  /** What a well-formed table guarantees row by row. */
  lemma {:induction false} WatchTableOkRows(rows: seq<WatchRow>, next: nat)
    requires WatchTableOk(rows, next)
    ensures forall i :: 0 <= i < |rows| ==> rows[i].id < next
    ensures forall i, j :: 0 <= i < j < |rows| ==> rows[i].id < rows[j].id
  {
    if |rows| > 0 {
      WatchTableOkRows(rows[..|rows| - 1], rows[|rows| - 1].id);
    }
  }

  lemma {:induction false} WatchTableGrows(rows: seq<WatchRow>, next: nat, next2: nat)
    requires WatchTableOk(rows, next) && next <= next2
    ensures WatchTableOk(rows, next2)
  {
  }

  /** Rewriting a row without touching its id keeps the table well formed. */
  lemma {:induction false} WatchTableUpdate(rows: seq<WatchRow>, next: nat, i: nat, x: WatchRow)
    requires WatchTableOk(rows, next) && i < |rows| && x.id == rows[i].id
    ensures WatchTableOk(rows[i := x], next)
  {
    var n := |rows|;
    if i < n - 1 {
      assert rows[i := x][..n - 1] == rows[..n - 1][i := x];
      WatchTableUpdate(rows[..n - 1], rows[n - 1].id, i, x);
    } else {
      assert rows[i := x][..n - 1] == rows[..n - 1];
    }
  }

  /** The insert of a subscription: a row with no snapshot and no hash yet. */
  function NewWatch(id: nat, waid: string, iata: string, date: Option<string>, now: string): WatchRow {
    WatchRow(id, waid, iata, date, Provider, None, None, now, now)
  }

  // ---------------------------------------------------------------------
  // Cancelling: DELETE ... WHERE waid=? [AND flight_iata=?]
  // ---------------------------------------------------------------------

  /** The rows a cancel deletes: the user's rows, or only those of one flight when a code is given. */
  predicate Matches(r: WatchRow, waid: string, code: Option<string>) {
    r.waid == waid && (code.None? || r.flightIata == code.value)
  }

  /** The table after the DELETE, in table order. */
  function Remaining(rows: seq<WatchRow>, waid: string, code: Option<string>): (r: seq<WatchRow>)
    ensures |r| <= |rows|
  {
    if |rows| == 0 then []
    else
      var prior := Remaining(rows[..|rows| - 1], waid, code);
      if Matches(rows[|rows| - 1], waid, code) then prior else prior + [rows[|rows| - 1]]
  }

  /** How many rows a cancel matches. */
  function CountMatching(rows: seq<WatchRow>, waid: string, code: Option<string>): (n: nat)
    ensures n <= |rows|
  {
    if |rows| == 0 then 0
    else CountMatching(rows[..|rows| - 1], waid, code) + if Matches(rows[|rows| - 1], waid, code) then 1 else 0
  }

  /** A row survives the cancel exactly when it does not match; other users' rows always survive. */
  lemma {:induction false} RemainingExactly(rows: seq<WatchRow>, waid: string, code: Option<string>, x: WatchRow)
    ensures x in Remaining(rows, waid, code) <==> x in rows && !Matches(x, waid, code)
  {
    if |rows| > 0 {
      var init := rows[..|rows| - 1];
      RemainingExactly(init, waid, code, x);
      assert rows == init + [rows[|rows| - 1]];
    }
  }

  /** The cancel removes exactly the matching rows. */
  lemma {:induction false} RemovedCount(rows: seq<WatchRow>, waid: string, code: Option<string>)
    ensures |rows| - |Remaining(rows, waid, code)| == CountMatching(rows, waid, code)
  {
    if |rows| > 0 {
      RemovedCount(rows[..|rows| - 1], waid, code);
    }
  }

  lemma {:induction false} RemainingKeepsTableOk(rows: seq<WatchRow>, next: nat, waid: string, code: Option<string>)
    requires WatchTableOk(rows, next)
    ensures WatchTableOk(Remaining(rows, waid, code), next)
  {
    if |rows| > 0 {
      var last := rows[|rows| - 1];
      var init := rows[..|rows| - 1];
      RemainingKeepsTableOk(init, last.id, waid, code);
      var prior := Remaining(init, waid, code);
      if Matches(last, waid, code) {
        WatchTableGrows(prior, last.id, next);
      } else {
        assert (prior + [last])[..|prior|] == prior;
      }
    }
  }

  // ---------------------------------------------------------------------
  // _fw_send_to_all (app.py:665-668)
  // ---------------------------------------------------------------------

  /** A CC entry as `_fw_send_to_all` rewrites it before sending. */
  function CcRecipient(r: string): string {
    NormalizeWaid(LStripChar(RemoveAll(r, WhatsAppPrefix), '+'))
  }

  /** `[rewrite(r) for r in entries if r]`: the non-empty entries, rewritten, in order. */
  function RewriteNonEmpty(entries: seq<string>, rewrite: string -> string): (r: seq<string>)
    ensures |r| <= |entries|
    ensures (forall k :: 0 <= k < |entries| ==> entries[k] != "") ==>
      |r| == |entries| && forall k :: 0 <= k < |entries| ==> r[k] == rewrite(entries[k])
  {
    if |entries| == 0 then []
    else
      var init := entries[..|entries| - 1];
      assert forall k :: 0 <= k < |init| ==> init[k] == entries[k];
      RewriteNonEmpty(init, rewrite) + if entries[|entries| - 1] != "" then [rewrite(entries[|entries| - 1])] else []
  }

  /** The comprehension handles the entries one at a time, in order. */
  lemma {:induction false} RewriteNonEmptyConcat(a: seq<string>, b: seq<string>, rewrite: string -> string)
    ensures RewriteNonEmpty(a + b, rewrite) == RewriteNonEmpty(a, rewrite) + RewriteNonEmpty(b, rewrite)
  {
    if |b| == 0 {
      assert a + b == a;
    } else {
      assert (a + b)[..|a + b| - 1] == a + b[..|b| - 1];
      assert (a + b)[|a + b| - 1] == b[|b| - 1];
      RewriteNonEmptyConcat(a, b[..|b| - 1], rewrite);
    }
  }

  lemma RewriteNonEmptyOfEmpty(rewrite: string -> string)
    ensures RewriteNonEmpty([""], rewrite) == []
  {
    assert [""][..0] == [];
  }

  /** An empty entry anywhere in the list is skipped. */
  lemma RewriteNonEmptySkipsEmpty(a: seq<string>, b: seq<string>, rewrite: string -> string)
    ensures RewriteNonEmpty(a + [""] + b, rewrite) == RewriteNonEmpty(a + b, rewrite)
  {
    RewriteNonEmptyOfEmpty(rewrite);
    RewriteNonEmptyConcat(a, [""], rewrite);
    RewriteNonEmptyConcat(a + [""], b, rewrite);
    RewriteNonEmptyConcat(a, b, rewrite);
  }

  /** Every result is the rewriting of a non-empty entry, and every non-empty entry yields one. */
  lemma {:induction false} RewriteNonEmptyExactly(entries: seq<string>, rewrite: string -> string, x: string)
    ensures x in RewriteNonEmpty(entries, rewrite) <==>
      exists k :: 0 <= k < |entries| && entries[k] != "" && x == rewrite(entries[k])
  {
    if |entries| > 0 {
      var init := entries[..|entries| - 1];
      RewriteNonEmptyExactly(init, rewrite, x);
      if x in RewriteNonEmpty(init, rewrite) {
        var k :| 0 <= k < |init| && init[k] != "" && x == rewrite(init[k]);
        assert entries[k] == init[k];
      }
      if exists k :: 0 <= k < |entries| && entries[k] != "" && x == rewrite(entries[k]) {
        var k :| 0 <= k < |entries| && entries[k] != "" && x == rewrite(entries[k]);
        if k < |init| {
          assert init[k] == entries[k];
        }
      }
    }
  }

  /**
   * `[normalize_waid(...) for r in NOTIFY_CC_WAIDS if r]`. With no empty
   * entry (the list is built from stripped, non-empty pieces) there is
   * exactly one recipient per entry, in list order.
   */
  function CcRecipients(cc: seq<string>): (r: seq<string>)
    ensures |r| <= |cc|
    ensures (forall k :: 0 <= k < |cc| ==> cc[k] != "") ==>
      |r| == |cc| && forall k :: 0 <= k < |cc| ==> r[k] == CcRecipient(cc[k])
  {
    RewriteNonEmpty(cc, CcRecipient)
  }

  /** An empty CC entry anywhere in the list is skipped. */
  lemma CcRecipientsSkipsEmpty(a: seq<string>, b: seq<string>)
    ensures CcRecipients(a + [""] + b) == CcRecipients(a + b)
  {
    RewriteNonEmptySkipsEmpty(a, b, CcRecipient);
  }

  /** Every CC recipient is a rewritten non-empty entry, and every non-empty entry is one. */
  lemma CcRecipientsExactly(cc: seq<string>, x: string)
    ensures x in CcRecipients(cc) <==> exists k :: 0 <= k < |cc| && cc[k] != "" && x == CcRecipient(cc[k])
  {
    RewriteNonEmptyExactly(cc, CcRecipient, x);
  }

  /** The owner first, then the CC list. */
  function Recipients(primary: string, cc: seq<string>): seq<string> {
    [primary] + CcRecipients(cc)
  }

  /** `out` after sending `body` to the first `n` recipients. */
  function SentTo(out: seq<Message>, recips: seq<string>, body: string, n: nat): (r: seq<Message>)
    requires n <= |recips|
    ensures |r| == |out| + n
  {
    if n == 0 then out else SentTo(out, recips, body, n - 1) + [Message(recips[n - 1], body)]
  }

  /** `out` after `_fw_send_to_all(primary, body)`. */
  function Notify(out: seq<Message>, primary: string, cc: seq<string>, body: string): seq<Message> {
    Broadcast(out, Recipients(primary, cc), body)
  }

  /** `out` after sending `body` to each of `recips` in turn. */
  function Broadcast(out: seq<Message>, recips: seq<string>, body: string): seq<Message> {
    SentTo(out, recips, body, |recips|)
  }

  lemma {:induction false} SentToContents(out: seq<Message>, recips: seq<string>, body: string, n: nat)
    requires n <= |recips|
    ensures SentTo(out, recips, body, n)[..|out|] == out
    ensures forall k :: 0 <= k < n ==> SentTo(out, recips, body, n)[|out| + k] == Message(recips[k], body)
  {
    if n > 0 {
      SentToContents(out, recips, body, n - 1);
    }
  }

  /** Sending to the owner and then to `rest`: one message each, in that order, after `out`. */
  lemma SendToOwnerFirst(out: seq<Message>, primary: string, rest: seq<string>, body: string)
    ensures var r := SentTo(out, [primary] + rest, body, 1 + |rest|);
      && |r| == |out| + 1 + |rest|
      && r[..|out|] == out
      && r[|out|] == Message(primary, body)
      && forall k :: 0 <= k < |rest| ==> r[|out| + 1 + k] == Message(rest[k], body)
  {
    var recips := [primary] + rest;
    SentToContents(out, recips, body, |recips|);
    assert recips[0] == primary;
    forall k | 0 <= k < |rest|
      ensures recips[1 + k] == rest[k]
    {
    }
  }

  /**
   * One notification: earlier messages stay, the owner gets the body first,
   * then each CC recipient in list order, one message each.
   */
  lemma NotifyContents(out: seq<Message>, primary: string, cc: seq<string>, body: string)
    ensures var r := Notify(out, primary, cc, body);
      && |r| == |out| + 1 + |CcRecipients(cc)|
      && r[..|out|] == out
      && r[|out|] == Message(primary, body)
      && forall k :: 0 <= k < |CcRecipients(cc)| ==> r[|out| + 1 + k] == Message(CcRecipients(cc)[k], body)
  {
    var rest := CcRecipients(cc);
    assert Notify(out, primary, cc, body) == Broadcast(out, [primary] + rest, body);
    SendToOwnerFirst(out, primary, rest, body);
  }

  /** Every accepted spelling of a CC number reaches the same WhatsApp id. */
  lemma CcRecipientForms(d: string)
    requires IsCanonicalWaid(d)
    ensures CcRecipient(d) == d
    ensures CcRecipient("+" + d) == d
    ensures CcRecipient(WhatsAppPrefix + "+" + d) == d
  {
    var p := "+" + d;
    NoPrefixIn(d);
    NoPrefixIn(p);
    RemoveAllAbsent(d, WhatsAppPrefix);
    RemoveAllAbsent(p, WhatsAppPrefix);
    assert RemoveAll(WhatsAppPrefix + p, WhatsAppPrefix) == RemoveAll(p, WhatsAppPrefix) by {
      assert WhatsAppPrefix + p != [] && WhatsAppPrefix <= WhatsAppPrefix + p;
      assert (WhatsAppPrefix + p)[|WhatsAppPrefix|..] == p;
    }
    assert WhatsAppPrefix + "+" + d == WhatsAppPrefix + p;
    PlusDigitsStripped(d);
    assert LStripChar(d, '+') == d;
    NormalizeWaidCanonical(d);
  }

  /** A '+' followed by digits, or digits alone, never contain "whatsapp:". */
  lemma NoPrefixIn(s: string)
    requires forall i :: 0 <= i < |s| ==> s[i] == '+' || IsDigit(s[i])
    ensures !Contains(s, WhatsAppPrefix)
  {
    NoCharNoContains(s, WhatsAppPrefix);
  }

  lemma {:induction false} NoCharNoContains(s: string, p: string)
    requires p != [] && forall i :: 0 <= i < |s| ==> s[i] == '+' || IsDigit(s[i])
    requires p[0] != '+' && !IsDigit(p[0])
    ensures !Contains(s, p)
    decreases |s|
  {
    if |s| > 0 {
      NoCharNoContains(s[1..], p);
    }
  }

  // ---------------------------------------------------------------------
  // cron_flightwatch (app.py:1237-1266)
  // ---------------------------------------------------------------------

  /** What `_fw_fetch_aviationstack` hands back: an error, or the value of the response's `data`. */
  datatype FetchResult = FetchError | FetchData(data: Json)

  /** What the pass does with one row. */
  datatype PollOutcome = Errored | Skipped | Unchanged | Changed(snap: Json, hash: string)

  /**
   * The pass's environment: the provider lookup by flight and date, the
   * snapshot hash, the message text and the clock reading.
   */
  datatype PassInputs = PassInputs(
    fetch: (string, Option<string>) -> FetchResult,
    hash: Json -> string,
    render: Json -> string,
    now: string)

  /**
   * `data[0]` on a truthy JSON value, or None where Python raises: the
   * first element of a list, the first character of a string; a dictionary
   * has no key 0 and numbers and booleans cannot be indexed.
   */
  function FirstRecord(data: Json): (r: Option<Json>)
    ensures data.JArr? && data.items != [] ==> r == Some(data.items[0])
    ensures data.JObj? || data.JNum? || data.JBool? || data.JNull? ==> r.None?
  {
    match data
    case JArr(items) => if items != [] then Some(items[0]) else None
    case JStr(s) => if s != "" then Some(JStr(s[..1])) else None
    case _ => None
  }

  /** The body of the loop for one row whose stored hash is `prev`. */
  function Poll(res: FetchResult, prev: Option<string>, hash: Json -> string): PollOutcome {
    match res
    case FetchError => Errored
    case FetchData(data) =>
      if !JsonTruthy(data) then Skipped
      else
        match FirstRecord(data)
        case None => Errored
        case Some(rec) =>
          var snap := SnapshotFromAviationstack(rec);
          if Some(hash(snap)) != prev then Changed(snap, hash(snap)) else Unchanged
  }

  function Outcome(r: WatchRow, env: PassInputs): PollOutcome {
    Poll(env.fetch(r.flightIata, r.flightDate), r.lastHash, env.hash)
  }

  /** The UPDATE of a changed row: only its snapshot, hash and update time. */
  function Apply(r: WatchRow, o: PollOutcome, now: string): (r': WatchRow)
    ensures r'.id == r.id && r'.waid == r.waid && r'.flightIata == r.flightIata
    ensures r'.flightDate == r.flightDate && r'.provider == r.provider && r'.createdAt == r.createdAt
    ensures o.Changed? ==> r'.lastSnapshot == Some(o.snap) && r'.lastHash == Some(o.hash)
    ensures !o.Changed? ==> r' == r
  {
    if o.Changed? then r.(lastSnapshot := Some(o.snap), lastHash := Some(o.hash), updatedAt := now) else r
  }

  /** What the pass finds for each row, in table order. */
  function Outcomes(rows: seq<WatchRow>, env: PassInputs): (os: seq<PollOutcome>)
    ensures |os| == |rows|
  {
    if |rows| == 0 then [] else Outcomes(rows[..|rows| - 1], env) + [Outcome(rows[|rows| - 1], env)]
  }

  lemma {:induction false} OutcomesAt(rows: seq<WatchRow>, env: PassInputs, i: nat)
    requires i < |rows|
    ensures Outcomes(rows, env)[i] == Outcome(rows[i], env)
  {
    if i < |rows| - 1 {
      OutcomesAt(rows[..|rows| - 1], env, i);
    }
  }

  /** The table after a whole pass. */
  function PollAll(rows: seq<WatchRow>, env: PassInputs): (r: seq<WatchRow>)
    ensures |r| == |rows|
  {
    Polled(rows, Outcomes(rows, env), 0, env.now)
  }

  /** After the pass every row is the original row polled once; none is added, dropped or moved. */
  lemma PollAllRows(rows: seq<WatchRow>, env: PassInputs)
    ensures |PollAll(rows, env)| == |rows|
    ensures forall i :: 0 <= i < |rows| ==> PollAll(rows, env)[i] == Apply(rows[i], Outcome(rows[i], env), env.now)
  {
    forall i | 0 <= i < |rows|
      ensures PollAll(rows, env)[i] == Apply(rows[i], Outcome(rows[i], env), env.now)
    {
      OutcomesAt(rows, env, i);
    }
  }

  /** The index the pass handles at step `j`: ORDER BY id DESC visits the table from its end. */
  function Visit(n: nat, j: nat): (i: nat)
    requires j < n
    ensures i < n
  {
    n - 1 - j
  }

  /**
   * The outbox after the first `j` steps of the pass, the rows having
   * outcomes `os`; each change goes to the row's owner and then to `ccTo`,
   * the CC list as `_fw_send_to_all` rewrites it.
   */
  function SentAfter(out: seq<Message>, rows: seq<WatchRow>, os: seq<PollOutcome>, j: nat, ccTo: seq<string>,
                     render: Json -> string): seq<Message>
    requires |os| == |rows| && j <= |rows|
  {
    if j == 0 then out
    else
      var prior := SentAfter(out, rows, os, j - 1, ccTo, render);
      var i := Visit(|rows|, j - 1);
      if os[i].Changed? then Broadcast(prior, [rows[i].waid] + ccTo, render(os[i].snap)) else prior
  }

  /** `updated` after the first `j` steps. */
  function ChangedAfter(os: seq<PollOutcome>, j: nat): nat
    requires j <= |os|
  {
    if j == 0 then 0 else ChangedAfter(os, j - 1) + if os[Visit(|os|, j - 1)].Changed? then 1 else 0
  }

  /** `errors` after the first `j` steps. */
  function ErroredAfter(os: seq<PollOutcome>, j: nat): nat
    requires j <= |os|
  {
    if j == 0 then 0 else ErroredAfter(os, j - 1) + if os[Visit(|os|, j - 1)].Errored? then 1 else 0
  }

  /** The table part-way through the pass: rows from index `k` on are polled, the ones before are untouched. */
  function Polled(rows: seq<WatchRow>, os: seq<PollOutcome>, k: nat, now: string): (r: seq<WatchRow>)
    requires |os| == |rows| && k <= |rows|
    ensures |r| == |rows|
    ensures forall i :: 0 <= i < |rows| ==> r[i] == if i < k then rows[i] else Apply(rows[i], os[i], now)
  {
    seq(|rows|, i requires 0 <= i < |rows| => if i < k then rows[i] else Apply(rows[i], os[i], now))
  }

  /** Polling row `k - 1` moves the boundary down by one; at the bottom the whole table is polled. */
  lemma PolledStep(rows: seq<WatchRow>, os: seq<PollOutcome>, k: nat, env: PassInputs)
    requires |os| == |rows| && 0 < k <= |rows|
    ensures Polled(rows, os, k - 1, env.now) == Polled(rows, os, k, env.now)[k - 1 := Apply(rows[k - 1], os[k - 1], env.now)]
  {
  }

  lemma PolledNone(rows: seq<WatchRow>, os: seq<PollOutcome>, now: string)
    requires |os| == |rows|
    ensures Polled(rows, os, |rows|, now) == rows
  {
  }

  /** One more step of the pass: the counters grow by what the visited row's outcome says. */
  lemma CountersStep(os: seq<PollOutcome>, j: nat)
    requires j < |os|
    ensures ChangedAfter(os, j + 1) == ChangedAfter(os, j) + (if os[Visit(|os|, j)].Changed? then 1 else 0)
    ensures ErroredAfter(os, j + 1) == ErroredAfter(os, j) + (if os[Visit(|os|, j)].Errored? then 1 else 0)
  {
  }

  /** The pass visits the rows in strictly descending id order. */
  lemma PassOrderDescending(rows: seq<WatchRow>, next: nat)
    requires WatchTableOk(rows, next)
    ensures forall j, k :: 0 <= j < k < |rows| ==> rows[Visit(|rows|, j)].id > rows[Visit(|rows|, k)].id
  {
    WatchTableOkRows(rows, next);
  }

  /**
   * A fetch error, empty data, or a snapshot whose hash equals the stored
   * one neither rewrites the row nor sends anything; otherwise the row gets
   * the new snapshot and its hash.
   */
  lemma PollQuiet(r: WatchRow, env: PassInputs)
    ensures var res := env.fetch(r.flightIata, r.flightDate);
      var o := Outcome(r, env);
      && (res.FetchError? ==> o == Errored)
      && (res.FetchData? && !JsonTruthy(res.data) ==> o == Skipped)
      && (res.FetchData? && JsonTruthy(res.data) && FirstRecord(res.data).Some?
          ==> var snap := SnapshotFromAviationstack(FirstRecord(res.data).value);
              (Some(env.hash(snap)) == r.lastHash <==> o == Unchanged)
              && (o.Changed? ==> Apply(r, o, env.now).lastHash == Some(env.hash(snap))))
      && (!o.Changed? ==> Apply(r, o, env.now) == r)
  {
  }

  /** `updated + errors` never exceeds the rows visited. */
  lemma {:induction false} PassCountsBounded(os: seq<PollOutcome>, j: nat)
    requires j <= |os|
    ensures ChangedAfter(os, j) + ErroredAfter(os, j) <= j
  {
    if j > 0 {
      PassCountsBounded(os, j - 1);
    }
  }

  /** A broadcast adds one message per recipient after the earlier ones. */
  lemma BroadcastExtends(out: seq<Message>, recips: seq<string>, body: string)
    ensures |Broadcast(out, recips, body)| == |out| + |recips|
    ensures Broadcast(out, recips, body)[..|out|] == out
  {
    SentToContents(out, recips, body, |recips|);
  }

  /** Each updated row sends one message to its owner and one per CC recipient, and nothing else is sent. */
  lemma PassMessageCount(out: seq<Message>, rows: seq<WatchRow>, os: seq<PollOutcome>, j: nat, ccTo: seq<string>,
                         render: Json -> string)
    requires |os| == |rows| && j <= |rows|
    ensures |SentAfter(out, rows, os, j, ccTo, render)| == |out| + ChangedAfter(os, j) * (1 + |ccTo|)
  {
    MessagesPerChange(out, rows, os, j, ccTo, render, 1 + |ccTo|);
  }

  /** The count with the size `m` of one notification named, which keeps the arithmetic linear per step. */
  lemma {:induction false} MessagesPerChange(out: seq<Message>, rows: seq<WatchRow>, os: seq<PollOutcome>, j: nat,
                                             ccTo: seq<string>, render: Json -> string, m: nat)
    requires |os| == |rows| && j <= |rows| && m == 1 + |ccTo|
    ensures |SentAfter(out, rows, os, j, ccTo, render)| == |out| + ChangedAfter(os, j) * m
  {
    if j == 0 {
      ZeroTimes(m);
    } else {
      MessagesPerChange(out, rows, os, j - 1, ccTo, render, m);
      var i := Visit(|rows|, j - 1);
      var prior := SentAfter(out, rows, os, j - 1, ccTo, render);
      if os[i].Changed? {
        BroadcastExtends(prior, [rows[i].waid] + ccTo, render(os[i].snap));
        CountStep(|SentAfter(out, rows, os, j, ccTo, render)|, |prior|, |out|, ChangedAfter(os, j - 1), m);
      }
    }
  }

  lemma ZeroTimes(m: int)
    ensures 0 * m == 0
  {
  }

  /** One more notification of `m` messages on top of `c` earlier ones. */
  lemma CountStep(next: int, prior: int, base: int, c: int, m: int)
    requires prior == base + c * m && next == prior + m
    ensures next == base + (c + 1) * m
  {
  }

  /** The pass only appends to the outbox. */
  lemma {:induction false} PassKeepsOutbox(out: seq<Message>, rows: seq<WatchRow>, os: seq<PollOutcome>, j: nat,
                                           ccTo: seq<string>, render: Json -> string)
    requires |os| == |rows| && j <= |rows|
    ensures |out| <= |SentAfter(out, rows, os, j, ccTo, render)|
    ensures SentAfter(out, rows, os, j, ccTo, render)[..|out|] == out
  {
    if j > 0 {
      PassKeepsOutbox(out, rows, os, j - 1, ccTo, render);
      var prior := SentAfter(out, rows, os, j - 1, ccTo, render);
      var i := Visit(|rows|, j - 1);
      if os[i].Changed? {
        var body := render(os[i].snap);
        BroadcastExtends(prior, [rows[i].waid] + ccTo, body);
        PrefixOfPrefix(out, prior, Broadcast(prior, [rows[i].waid] + ccTo, body));
      }
    }
  }

  lemma PrefixOfPrefix(a: seq<Message>, b: seq<Message>, c: seq<Message>)
    requires |a| <= |b| <= |c| && b[..|a|] == a && c[..|b|] == b
    ensures c[..|a|] == a
  {
    assert c[..|a|] == c[..|b|][..|a|];
  }

  /** A row's stored hash is the hash of its stored snapshot, and both are absent together. */
  predicate Hashed(r: WatchRow, hash: Json -> string) {
    (r.lastSnapshot.None? <==> r.lastHash.None?)
    && (r.lastSnapshot.Some? ==> r.lastHash == Some(hash(r.lastSnapshot.value)))
  }

  /** The pass keeps every row's hash in step with its snapshot. */
  lemma PassKeepsHashed(rows: seq<WatchRow>, env: PassInputs)
    requires forall i :: 0 <= i < |rows| ==> Hashed(rows[i], env.hash)
    ensures forall i :: 0 <= i < |rows| ==> Hashed(PollAll(rows, env)[i], env.hash)
  {
    PollAllRows(rows, env);
  }

  /**
   * With the provider answering as before, a second pass finds no change:
   * it rewrites nothing and sends nothing.
   */
  lemma PassTwiceQuiet(out: seq<Message>, rows: seq<WatchRow>, env: PassInputs, ccTo: seq<string>)
    ensures PollAll(PollAll(rows, env), env) == PollAll(rows, env)
    ensures ChangedAfter(Outcomes(PollAll(rows, env), env), |rows|) == 0
    ensures SentAfter(out, PollAll(rows, env), Outcomes(PollAll(rows, env), env), |rows|, ccTo, env.render) == out
  {
    var once := PollAll(rows, env);
    var os := Outcomes(once, env);
    PollAllRows(rows, env);
    PollAllRows(once, env);
    forall i | 0 <= i < |rows|
      ensures !os[i].Changed?
    {
      OutcomesAt(once, env, i);
      var o := Outcome(rows[i], env);
      if o.Changed? {
        assert once[i].lastHash == Some(o.hash);
      }
    }
    QuietPass(out, once, os, |rows|, ccTo, env.render);
  }

  lemma {:induction false} QuietPass(out: seq<Message>, rows: seq<WatchRow>, os: seq<PollOutcome>, j: nat,
                                     ccTo: seq<string>, render: Json -> string)
    requires |os| == |rows| && j <= |rows|
    requires forall i :: 0 <= i < |os| ==> !os[i].Changed?
    ensures ChangedAfter(os, j) == 0 && SentAfter(out, rows, os, j, ccTo, render) == out
  {
    if j > 0 {
      QuietPass(out, rows, os, j - 1, ccTo, render);
    }
  }

  // ---------------------------------------------------------------------
  // Replies of the webhook branches
  // ---------------------------------------------------------------------

  /** The webhook's answer to a flight-watch request. */
  datatype WatchReply =
    | NeedFlightId
    | Watching(flight: string, date: Option<string>)
    | Unwatched(target: Option<string>, count: nat)
    | NotAWatchCommand

  /** Rows `store_recommendation_if_relevant` inserts on the same connection for a message (app.py:594-611, 977). */
  function RecommendationWrites(body: string, lat: Option<string>, lon: Option<string>): (n: nat)
    ensures body != "" ==> n == 1
  {
    if body != "" || (Truthy(lat) && Truthy(lon)) then 1 else 0
  }

  /**
   * The count the cancel reply reports as written: `db.total_changes`
   * counts every change of the request's connection, so the recommendation
   * row inserted earlier is counted with the deleted rows.
   */
  function CancelReplyCountAsWritten(rows: seq<WatchRow>, waid: string, code: Option<string>,
                                     body: string, lat: Option<string>, lon: Option<string>): nat {
    (|rows| - |Remaining(rows, waid, code)|) + RecommendationWrites(body, lat, lon)
  }

  /** Any cancel message over-reports by one: the message text itself is stored as a recommendation. */
  lemma CancelCountOverstated(rows: seq<WatchRow>, waid: string, code: Option<string>,
                              body: string, lat: Option<string>, lon: Option<string>)
    requires body != ""
    ensures CancelReplyCountAsWritten(rows, waid, code, body, lat, lon) == CountMatching(rows, waid, code) + 1
  {
    RemovedCount(rows, waid, code);
  }

  /** Cancelling one watched flight ("בטל LY81") reports two rows. */
  lemma CancelCountExample(w: WatchRow, body: string)
    requires w.flightIata == "LY81" && body == "\U{5D1}\U{5D8}\U{5DC} LY81"
    ensures CountMatching([w], w.waid, Some("LY81")) == 1
    ensures CancelReplyCountAsWritten([w], w.waid, Some("LY81"), body, None, None) == 2
  {
    assert [w][..0] == [];
    CancelCountOverstated([w], w.waid, Some("LY81"), body, None, None);
  }

  // ---------------------------------------------------------------------
  // The store
  // ---------------------------------------------------------------------

  /**
   * The `flight_watch` table with its id counter, the messages sent so far,
   * and the CC list of every notification.
   */
  class WatchStore {
    var rows: seq<WatchRow>
    var nextId: nat
    var outbox: seq<Message>
    /**
     * NOTIFY_CC_WAIDS as `_fw_send_to_all` rewrites it; the setting is fixed
     * at start-up, so every call computes this same list.
     */
    const ccRecipients: seq<string>

    ghost predicate Valid()
      reads this
    {
      WatchTableOk(rows, nextId)
    }

    constructor (notifyCc: seq<string>)
      ensures Valid() && rows == [] && nextId == 1 && outbox == []
      ensures ccRecipients == CcRecipients(notifyCc)
    {
      rows, nextId, outbox := [], 1, [];
      ccRecipients := CcRecipients(notifyCc);
    }

    /** INSERT INTO flight_watch for one flight. */
    method Subscribe(waid: string, iata: string, date: Option<string>, now: string)
      requires Valid()
      modifies this
      ensures Valid()
      ensures rows == old(rows) + [NewWatch(old(nextId), waid, iata, date, now)]
      ensures nextId == old(nextId) + 1 && outbox == old(outbox)
    {
      var w := NewWatch(nextId, waid, iata, date, now);
      assert (rows + [w])[..|rows|] == rows;
      rows := rows + [w];
      nextId := nextId + 1;
    }

    /** DELETE FROM flight_watch for a user, or for one of the user's flights. */
    method Cancel(waid: string, code: Option<string>) returns (removed: nat)
      requires Valid()
      modifies this
      ensures Valid()
      ensures rows == Remaining(old(rows), waid, code)
      ensures removed == CountMatching(old(rows), waid, code)
      ensures nextId == old(nextId) && outbox == old(outbox)
    {
      RemainingKeepsTableOk(rows, nextId, waid, code);
      RemovedCount(rows, waid, code);
      var before := |rows|;
      rows := Remaining(rows, waid, code);
      removed := before - |rows|;
    }

    /** The `subscribe_flight` branch: the flight code is upper-cased, and an empty one is refused. */
    method SubscribeFlight(waid: string, iata: Option<string>, date: Option<string>, now: string)
      returns (reply: WatchReply)
      requires Valid()
      modifies this
      ensures Valid() && outbox == old(outbox)
      ensures Truthy(iata) ==>
        && reply == Watching(Upper(iata.value), date)
        && rows == old(rows) + [NewWatch(old(nextId), waid, Upper(iata.value), date, now)]
        && nextId == old(nextId) + 1
      ensures !Truthy(iata) ==> reply == NeedFlightId && rows == old(rows) && nextId == old(nextId)
    {
      var code := Upper(OrEmpty(iata));
      if code == "" {
        reply := NeedFlightId;
      } else {
        Subscribe(waid, code, date, now);
        reply := Watching(code, date);
      }
    }

    /** The `cancel_flight` branch, reporting the number of rows it deleted. */
    method CancelFlight(waid: string, iata: Option<string>) returns (reply: WatchReply)
      requires Valid()
      modifies this
      ensures Valid() && nextId == old(nextId) && outbox == old(outbox)
      ensures var code := if Truthy(iata) then Some(Upper(iata.value)) else None;
        && rows == Remaining(old(rows), waid, code)
        && reply == Unwatched(code, CountMatching(old(rows), waid, code))
    {
      var name := Upper(OrEmpty(iata));
      var code := if name != "" then Some(name) else None;
      var n := Cancel(waid, code);
      reply := Unwatched(code, n);
    }

    /**
     * The flight-watch fallback commands, dispatched with untrack before
     * track and reporting the rows actually deleted.
     */
    method HandleWatchCommand(waid: string, lowered: string, flightMatch: Option<string>,
                              dateMatch: Option<string>, now: string)
      returns (reply: WatchReply)
      requires Valid()
      modifies this
      ensures Valid() && outbox == old(outbox)
      ensures match FallbackCommand(lowered, flightMatch, dateMatch)
        case NoWatchCommand => reply == NotAWatchCommand && rows == old(rows) && nextId == old(nextId)
        case Track(flight, date) =>
          if Truthy(flight) then
            reply == Watching(flight.value, date)
            && rows == old(rows) + [NewWatch(old(nextId), waid, flight.value, date, now)]
            && nextId == old(nextId) + 1
          else reply == NeedFlightId && rows == old(rows) && nextId == old(nextId)
        case Untrack(target) =>
          var code := if target == AllFlights then None else Some(target);
          && rows == Remaining(old(rows), waid, code)
          && reply == Unwatched(code, CountMatching(old(rows), waid, code))
          && nextId == old(nextId)
    {
      var cmd := FallbackCommand(lowered, flightMatch, dateMatch);
      match cmd {
        case NoWatchCommand =>
          reply := NotAWatchCommand;
        case Track(flight, date) =>
          if Truthy(flight) {
            Subscribe(waid, flight.value, date, now);
            reply := Watching(flight.value, date);
          } else {
            reply := NeedFlightId;
          }
        case Untrack(target) =>
          var code := if target == AllFlights then None else Some(target);
          var n := Cancel(waid, code);
          reply := Unwatched(code, n);
      }
    }

    /** `_fw_send_to_all`: the owner, then every CC recipient, get `body`. */
    method SendToAll(primary: string, body: string)
      modifies this
      ensures outbox == Broadcast(old(outbox), [primary] + ccRecipients, body)
      ensures rows == old(rows) && nextId == old(nextId)
    {
      var recips := [primary] + ccRecipients;
      for i := 0 to |recips|
        invariant outbox == SentTo(old(outbox), recips, body, i)
        invariant rows == old(rows) && nextId == old(nextId)
      {
        outbox := outbox + [Message(recips[i], body)];
      }
    }

    /**
     * One iteration of the pass for the row at `idx`, read before the pass
     * as `r`: fetch, project, compare hashes, and on a change notify and
     * rewrite that row.
     */
    method PollRow(r: WatchRow, idx: nat, env: PassInputs) returns (o: PollOutcome)
      requires idx < |rows| && rows[idx] == r
      modifies this
      ensures o == Outcome(r, env)
      ensures rows == old(rows)[idx := Apply(r, o, env.now)]
      ensures outbox == if o.Changed? then Broadcast(old(outbox), [r.waid] + ccRecipients, env.render(o.snap)) else old(outbox)
      ensures nextId == old(nextId)
    {
      var res := env.fetch(r.flightIata, r.flightDate);
      if res.FetchError? {
        return Errored;
      }
      var data := res.data;
      if !JsonTruthy(data) {
        return Skipped;
      }
      var first := FirstRecord(data);
      if first.None? {
        return Errored;
      }
      var snap := SnapshotFromAviationstack(first.value);
      var h := env.hash(snap);
      var prev := rows[idx].lastHash;
      if Some(h) != prev {
        SendToAll(r.waid, env.render(snap));
        rows := rows[idx := rows[idx].(lastSnapshot := Some(snap), lastHash := Some(h), updatedAt := env.now)];
        o := Changed(snap, h);
      } else {
        o := Unchanged;
      }
    }

    /**
     * The state of the pass after `j` steps from the table `selected` and
     * the outbox `out0`: rows from the boundary on are polled, the outbox
     * holds the notifications of the changed rows visited, the counters
     * count them, and the table stays well formed.
     */
    ghost predicate PassAt(selected: seq<WatchRow>, os: seq<PollOutcome>, j: nat, env: PassInputs,
                           out0: seq<Message>, updated: nat, errors: nat)
      reads this
    {
      |os| == |selected| && j <= |selected|
      && rows == Polled(selected, os, |selected| - j, env.now)
      && outbox == SentAfter(out0, selected, os, j, ccRecipients, env.render)
      && updated == ChangedAfter(os, j) && errors == ErroredAfter(os, j)
      && WatchTableOk(rows, nextId)
    }

    /**
     * One iteration of the pass, seen from the whole pass: row
     * `Visit(|selected|, j)` is polled and the counters are bumped.
     */
    method PollStep(selected: seq<WatchRow>, os: seq<PollOutcome>, j: nat, env: PassInputs,
                    ghost out0: seq<Message>, updated: nat, errors: nat)
      returns (updatedAfter: nat, errorsAfter: nat)
      requires j < |selected| && os == Outcomes(selected, env)
      requires PassAt(selected, os, j, env, out0, updated, errors)
      modifies this
      ensures PassAt(selected, os, j + 1, env, out0, updatedAfter, errorsAfter)
      ensures nextId == old(nextId)
    {
      var idx := Visit(|selected|, j);
      OutcomesAt(selected, env, idx);
      PolledStep(selected, os, |selected| - j, env);
      WatchTableUpdate(rows, nextId, idx, Apply(selected[idx], os[idx], env.now));
      CountersStep(os, j);
      var o := PollRow(selected[idx], idx, env);
      updatedAfter, errorsAfter := updated, errors;
      if o.Errored? {
        errorsAfter := errors + 1;
      } else if o.Changed? {
        updatedAfter := updated + 1;
      }
    }

    /** `cron_flightwatch`: poll every row, newest first, and report the counters. */
    method CronFlightwatch(env: PassInputs) returns (updated: nat, errors: nat, total: nat)
      requires Valid()
      modifies this
      ensures Valid()
      ensures rows == PollAll(old(rows), env)
      ensures outbox == SentAfter(old(outbox), old(rows), Outcomes(old(rows), env), |old(rows)|, ccRecipients, env.render)
      ensures updated == ChangedAfter(Outcomes(old(rows), env), |old(rows)|)
      ensures errors == ErroredAfter(Outcomes(old(rows), env), |old(rows)|)
      ensures total == |old(rows)| && nextId == old(nextId)
    {
      var selected := rows;
      var os := Outcomes(selected, env);
      var n := |selected|;
      PolledNone(selected, os, env.now);
      updated, errors := 0, 0;
      for j := 0 to n
        invariant PassAt(selected, os, j, env, old(outbox), updated, errors) && nextId == old(nextId)
      {
        updated, errors := PollStep(selected, os, j, env, old(outbox), updated, errors);
      }
      total := n;
    }
  }
}
