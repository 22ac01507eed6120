/**
 The rows of one chat session and the reads and writes the chat store issues on them
 (backend-python/app/db/chat.py). `rows` lists the message rows in insertion order; that
 insertion order is also `seq` order is not part of the type, it is proved (`GapFree`).
 */
module ChatRows {
  import opened Wrappers

  datatype Role = User | Assistant

  datatype Status = Complete | Error | Interrupted

  /** A message row. `author` names the request that wrote it and exists for the proofs only. */
  datatype Message = Message(
    seqNo: nat, role: Role, content: string, status: Status,
    finish: Option<string>, key: Option<string>, author: nat)

  /** A summary row. `sources` lists the messages its text stands for, for the proofs only. */
  datatype Summary = Summary(version: nat, covers: nat, content: string, sources: seq<Message>)

  datatype Db = Db(nextSeq: nat, rows: seq<Message>, summaries: seq<Summary>)

  const EMPTY_SESSION := Db(1, [], [])

  // ---- reads ---------------------------------------------------------------

  function FindByKey(rows: seq<Message>, key: string): (r: Option<Message>)
    ensures r.Some? ==> r.value in rows && r.value.key == Some(key)
    ensures r.None? ==> forall m :: m in rows ==> m.key != Some(key)
  {
    if rows == [] then None
    else if rows[0].key == Some(key) then Some(rows[0])
    else FindByKey(rows[1..], key)
  }

  function BySeq(rows: seq<Message>, n: nat): (r: Option<Message>)
    ensures r.Some? ==> r.value in rows && r.value.seqNo == n
    ensures r.None? ==> forall m :: m in rows ==> m.seqNo != n
  {
    if rows == [] then None
    else if rows[0].seqNo == n then Some(rows[0])
    else BySeq(rows[1..], n)
  }

  function After(rows: seq<Message>, n: nat): seq<Message>
  {
    if rows == [] then []
    else (if rows[0].seqNo > n then [rows[0]] else []) + After(rows[1..], n)
  }

  function Latest(summaries: seq<Summary>): (r: Option<Summary>)
    ensures r.None? <==> summaries == []
    ensures r.Some? ==> r.value in summaries
    ensures r.Some? ==> forall z :: z in summaries ==> z.version <= r.value.version
  {
    if summaries == [] then None
    else
      var rest := Latest(summaries[1..]);
      if rest.None? || summaries[0].version > rest.value.version then Some(summaries[0]) else rest
  }

  function Covered(latest: Option<Summary>): nat {
    if latest.Some? then latest.value.covers else 0
  }

  function Sources(latest: Option<Summary>): seq<Message> {
    if latest.Some? then latest.value.sources else []
  }

  // ---- writes --------------------------------------------------------------

  /** The two unique indexes: (session, seq), and (session, client_message_id) when present. */
  predicate Clash(a: Message, b: Message) {
    a.seqNo == b.seqNo || (a.key.Some? && a.key == b.key)
  }

  predicate Clashes(rows: seq<Message>, m: Message) {
    exists r :: r in rows && Clash(r, m)
  }

  function UserRow(seqNo: nat, prompt: string, key: Option<string>, author: nat): Message {
    Message(seqNo, User, prompt, Complete, None, key, author)
  }

  function ReplyRow(seqNo: nat, content: string, status: Status, finish: Option<string>, author: nat): Message {
    Message(seqNo, Assistant, content, status, finish, None, author)
  }

  /** The summary written after `latest`, from a non-empty tail. */
  function NextSummary(latest: Option<Summary>, tail: seq<Message>, text: string): Summary
    requires tail != []
  {
    Summary(if latest.Some? then latest.value.version + 1 else 1,
            tail[|tail| - 1].seqNo, text, Sources(latest) + tail)
  }

  // ---- the shape of a session ----------------------------------------------

  /** Sequence numbers are exactly 1 .. nextSeq-1, in insertion order. */
  ghost predicate GapFree(db: Db) {
    && db.nextSeq == |db.rows| + 1
    && forall i :: 0 <= i < |db.rows| ==> db.rows[i].seqNo == i + 1
  }

  /** Rows come in turns: a user row, then the assistant row of the same request. */
  ghost predicate Paired(rows: seq<Message>) {
    && |rows| % 2 == 0
    && forall i :: 0 <= i < |rows| && i % 2 == 0 ==>
         && rows[i].role == User && rows[i + 1].role == Assistant
         && rows[i + 1].author == rows[i].author && rows[i + 1].key == None
  }

  ghost predicate DistinctKeys(rows: seq<Message>) {
    forall i, j :: 0 <= i < j < |rows| && rows[i].key.Some? ==> rows[i].key != rows[j].key
  }

  /** `z` stands for exactly the first `covers` messages, each once and in order. */
  ghost predicate Represents(z: Summary, rows: seq<Message>) {
    z.covers <= |rows| && z.sources == rows[..z.covers]
  }

  /** Versions are consecutive, covered prefixes strictly grow, every summary stands for its prefix. */
  ghost predicate Chain(summaries: seq<Summary>, rows: seq<Message>) {
    && (forall j :: 0 <= j < |summaries| ==> summaries[j].version == summaries[0].version + j)
    && (forall j, k :: 0 <= j < k < |summaries| ==> summaries[j].covers < summaries[k].covers)
    && (forall z :: z in summaries ==> Represents(z, rows) && z.version >= 1)
  }

  /** Row i belongs to the turn that starts at the even position below it. */
  lemma TurnStart(rows: seq<Message>, i: nat)
    requires Paired(rows) && i < |rows|
    ensures var j := i - i % 2;
            && j % 2 == 0 && j + 1 < |rows| && rows[i].author == rows[j].author
            && (rows[i].role == User <==> i == j) && (rows[i].key.Some? ==> i == j)
  {
    var j := i - i % 2;
    assert j % 2 == 0 && rows[j].role == User && rows[j + 1].key == None;
  }

  // ---- reads on a well-shaped session ---------------------------------------

  lemma {:induction false} AfterIsSuffix(rows: seq<Message>, base: nat, n: nat)
    requires forall i :: 0 <= i < |rows| ==> rows[i].seqNo == base + i + 1
    requires base <= n <= base + |rows|
    ensures After(rows, n) == rows[n - base..]
  {
    if rows != [] {
      if n == base {
        AfterAll(rows, n);
      } else {
        AfterIsSuffix(rows[1..], base + 1, n);
      }
    }
  }

  lemma {:induction false} AfterAll(rows: seq<Message>, n: nat)
    requires forall i :: 0 <= i < |rows| ==> rows[i].seqNo > n
    ensures After(rows, n) == rows
  {
    if rows != [] {
      AfterAll(rows[1..], n);
    }
  }

  lemma BySeqIsIndex(db: Db, n: nat)
    requires GapFree(db)
    ensures BySeq(db.rows, n) == if 1 <= n <= |db.rows| then Some(db.rows[n - 1]) else None
  {
    var r := BySeq(db.rows, n);
    if 1 <= n <= |db.rows| {
      assert db.rows[n - 1] in db.rows;
    }
  }

  lemma {:induction false} LatestIsLast(summaries: seq<Summary>)
    requires summaries != []
    requires forall j :: 0 <= j < |summaries| ==> summaries[j].version == summaries[0].version + j
    ensures Latest(summaries) == Some(summaries[|summaries| - 1])
  {
    if |summaries| > 1 {
      var rest := summaries[1..];
      assert forall j :: 0 <= j < |rest| ==> rest[j].version == rest[0].version + j;
      LatestIsLast(rest);
    }
  }

  lemma SplitAt(rows: seq<Message>, c: nat)
    requires c <= |rows|
    ensures rows[..c] + rows[c..] == rows
  {
  }

  /** The context a turn reads back, latest summary first and then the tail, is the whole transcript. */
  lemma ContextIsTranscript(db: Db)
    requires GapFree(db) && Chain(db.summaries, db.rows)
    ensures Sources(Latest(db.summaries)) + After(db.rows, Covered(Latest(db.summaries))) == db.rows
  {
    var latest := Latest(db.summaries);
    var c := Covered(latest);
    assert c <= |db.rows| && Sources(latest) == db.rows[..c];
    AfterIsSuffix(db.rows, 0, c);
    SplitAt(db.rows, c);
  }
}
