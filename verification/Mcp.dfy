/** Request/response correlation of the MCP stdio client (JSON-RPC 2.0, section 5). */
module Mcp {
  import opened Wrappers

  /** The `id` of a document: absent or null, a number, a boolean or a text. */
  datatype JsonId = NoId | IntId(n: int) | RealId(x: real) | BoolId(b: bool) | TextId(text: string)

  /** The request number that an id equals as a dictionary key: `true` is 1, and so is `1.0`. */
  function KeyOf(id: JsonId): Option<int> {
    match id
    case NoId => None
    case IntId(n) => Some(n)
    case RealId(x) => if x.Floor as real == x then Some(x.Floor) else None
    case BoolId(b) => Some(if b then 1 else 0)
    case TextId(_) => None
  }

  /** One incoming line: a document that may carry an id, or a text the reader cannot process. */
  datatype Line = Document(id: JsonId, payload: string) | Broken(error: string)

  datatype Resolution = Waiting | Answered(payload: string) | Errored(error: string) | Abandoned

  /** `futures[i]` belongs to request `i + 1`; `pending` are the ids the reader still knows. */
  datatype Client = Client(pending: set<int>, futures: seq<Resolution>, reading: bool)

  datatype Action =
    | Send
    | Receive(line: Line)
    | EndOfStream
    | Abandon(id: int)

  const NEW := Client({}, [], true)

  predicate Enabled(c: Client, a: Action) {
    match a
    case Send => true
    case Receive(_) => c.reading
    case EndOfStream => c.reading
    case Abandon(id) => 1 <= id <= |c.futures|
  }

  /** A finished future stays as it is. */
  function Settle(r: Resolution, news: Resolution): Resolution { if r == Waiting then news else r }

  function Deliver(c: Client, id: int, news: Resolution): Client {
    if id in c.pending && 1 <= id <= |c.futures|
    then c.(pending := c.pending - {id}, futures := c.futures[id - 1 := Settle(c.futures[id - 1], news)])
    else c
  }

  /** The reader failed: everything it still knows fails with it. */
  function FailAll(c: Client, error: string): Client {
    c.(futures := seq(|c.futures|, i requires 0 <= i < |c.futures| =>
         if i + 1 in c.pending then Settle(c.futures[i], Errored(error)) else c.futures[i]),
       reading := false)
  }

  function Apply(c: Client, a: Action): Client {
    match a
    case Send => c.(pending := c.pending + {|c.futures| + 1}, futures := c.futures + [Waiting])
    case Receive(Document(id, payload)) => if KeyOf(id).Some? then Deliver(c, KeyOf(id).value, Answered(payload)) else c
    case Receive(Broken(error)) => FailAll(c, error)
    case EndOfStream => c.(reading := false)
    case Abandon(id) =>
      if 1 <= id <= |c.futures| then c.(futures := c.futures[id - 1 := Settle(c.futures[id - 1], Abandoned)]) else c
  }

  ghost predicate Legal(c: Client, acts: seq<Action>)
    decreases |acts|
  {
    acts == [] || (Enabled(c, acts[0]) && Legal(Apply(c, acts[0]), acts[1..]))
  }

  ghost function After(c: Client, acts: seq<Action>): Client
    decreases |acts|
  {
    if acts == [] then c else After(Apply(c, acts[0]), acts[1..])
  }

  /** The action receives a response with this payload whose id equals `id`. */
  predicate Answers(a: Action, id: int, payload: string) {
    a.Receive? && a.line.Document? && KeyOf(a.line.id) == Some(id) && a.line.payload == payload
  }

  /** Known ids were issued, and a future nobody finished is still known. */
  ghost predicate Inv(c: Client) {
    && (forall id :: id in c.pending ==> 1 <= id <= |c.futures|)
    && (forall i :: 0 <= i < |c.futures| && c.futures[i] == Waiting ==> i + 1 in c.pending)
  }

  lemma StepKeepsInv(c: Client, a: Action)
    requires Inv(c) && Enabled(c, a)
    ensures Inv(Apply(c, a)) && |c.futures| <= |Apply(c, a).futures|
    ensures forall i :: 0 <= i < |c.futures| && c.futures[i] != Waiting ==> Apply(c, a).futures[i] == c.futures[i]
    ensures forall i :: 0 <= i < |c.futures| && c.futures[i] == Waiting && Apply(c, a).futures[i].Answered? ==>
      Answers(a, i + 1, Apply(c, a).futures[i].payload)
  {
  }

  // ---------------------------------------------------------------- runs

  /** A future resolves at most once: finished, it never changes again. */
  lemma {:induction false} ResolvedOnce(c: Client, acts: seq<Action>, i: nat)
    requires Inv(c) && Legal(c, acts) && i < |c.futures| && c.futures[i] != Waiting
    ensures i < |After(c, acts).futures| && After(c, acts).futures[i] == c.futures[i]
    decreases |acts|
  {
    if acts != [] {
      StepKeepsInv(c, acts[0]);
      ResolvedOnce(Apply(c, acts[0]), acts[1..], i);
    }
  }

  /** An answered future was answered by a response that carried its own id. */
  lemma {:induction false} AnsweredByOwnId(c: Client, acts: seq<Action>, i: nat) returns (n: nat)
    requires Inv(c) && Legal(c, acts) && (i < |c.futures| ==> c.futures[i] == Waiting)
    requires i < |After(c, acts).futures| && After(c, acts).futures[i].Answered?
    ensures n < |acts| && Answers(acts[n], i + 1, After(c, acts).futures[i].payload)
    decreases |acts|
  {
    StepKeepsInv(c, acts[0]);
    var c' := Apply(c, acts[0]);
    if i < |c.futures| && c'.futures[i] != Waiting {
      ResolvedOnce(c', acts[1..], i);
      n := 0;
    } else {
      var m := AnsweredByOwnId(c', acts[1..], i);
      n := m + 1;
    }
  }

  /** A response with no id, an unknown id or an id already answered changes nothing. */
  lemma StrayResponseIgnored(c: Client, id: JsonId, payload: string)
    requires Inv(c)
    ensures Apply(c, Receive(Document(id, payload))) == c <==> KeyOf(id).None? || KeyOf(id).value !in c.pending
  {
    if KeyOf(id).Some? && KeyOf(id).value in c.pending {
      assert KeyOf(id).value !in Apply(c, Receive(Document(id, payload))).pending;
    }
  }

  /**
   * Which ids answer request `n`: the number itself, and two that JSON-RPC would not take for it, the
   * floating-point number of that value and, for the first request, `true`.
   */
  lemma AnsweringIdsExactly(c: Client, n: nat, id: JsonId, payload: string)
    requires Inv(c) && 1 <= n <= |c.futures| && c.futures[n - 1] == Waiting
    ensures Apply(c, Receive(Document(id, payload))).futures[n - 1].Answered? <==>
            id == IntId(n) || id == RealId(n as real) || (n == 1 && id == BoolId(true))
  {
    assert (n as real).Floor == n;
    if KeyOf(id) == Some(n) {
      assert Apply(c, Receive(Document(id, payload))).futures[n - 1] == Answered(payload);
    }
  }

  /** The id of a response is spent: receiving it twice is receiving it once. */
  lemma RepeatedResponseIgnored(c: Client, id: JsonId, first: string, second: string)
    requires Inv(c)
    ensures var once := Apply(c, Receive(Document(id, first)));
      Apply(once, Receive(Document(id, second))) == once
  {
  }

  /** After a broken line no future is left waiting. */
  lemma BrokenLineStrandsNobody(c: Client, error: string)
    requires Inv(c) && c.reading
    ensures var c' := Apply(c, Receive(Broken(error)));
      !c'.reading && forall i :: 0 <= i < |c'.futures| ==>
        c'.futures[i] == if c.futures[i] == Waiting then Errored(error) else c.futures[i]
  {
  }

  /** A stopped reader answers nobody any more. */
  lemma {:induction false} NothingAnsweredAfterStop(c: Client, acts: seq<Action>, i: nat)
    requires Inv(c) && Legal(c, acts) && !c.reading && (i < |c.futures| ==> !c.futures[i].Answered?)
    requires i < |After(c, acts).futures|
    ensures !After(c, acts).futures[i].Answered?
    decreases |acts|
  {
    if acts != [] {
      StepKeepsInv(c, acts[0]);
      NothingAnsweredAfterStop(Apply(c, acts[0]), acts[1..], i);
    }
  }

  /** Once the reader has stopped, a future still waiting waits until its caller gives up. */
  lemma {:induction false} StoppedReaderStrands(c: Client, acts: seq<Action>, i: nat)
    requires Inv(c) && Legal(c, acts) && !c.reading && i < |c.futures| && c.futures[i] == Waiting
    ensures i < |After(c, acts).futures|
    ensures After(c, acts).futures[i] == if Abandon(i + 1) in acts then Abandoned else Waiting
    decreases |acts|
  {
    if acts != [] {
      StepKeepsInv(c, acts[0]);
      assert acts == [acts[0]] + acts[1..];
      if acts[0] == Abandon(i + 1) {
        ResolvedOnce(Apply(c, acts[0]), acts[1..], i);
      } else {
        StoppedReaderStrands(Apply(c, acts[0]), acts[1..], i);
      }
    }
  }

  /** The stream ending cleanly, unlike a broken line, finishes no future, so those unanswered are stranded. */
  lemma EndOfStreamStrands(c: Client, acts: seq<Action>, i: nat)
    requires Inv(c) && c.reading && Legal(Apply(c, EndOfStream), acts) && i < |c.futures|
    ensures i < |After(Apply(c, EndOfStream), acts).futures|
    ensures After(Apply(c, EndOfStream), acts).futures[i]
            == if c.futures[i] != Waiting then c.futures[i] else if Abandon(i + 1) in acts then Abandoned else Waiting
  {
    StepKeepsInv(c, EndOfStream);
    if c.futures[i] == Waiting {
      StoppedReaderStrands(Apply(c, EndOfStream), acts, i);
    } else {
      ResolvedOnce(Apply(c, EndOfStream), acts, i);
    }
  }

  // ---------------------------------------------------------------- order of responses

  datatype Response = Response(id: int, payload: string)

  function Received(rs: seq<Response>): seq<Action> {
    seq(|rs|, i requires 0 <= i < |rs| => Receive(Document(IntId(rs[i].id), rs[i].payload)))
  }

  ghost predicate DistinctIds(rs: seq<Response>) { forall i, k :: 0 <= i < k < |rs| ==> rs[i].id != rs[k].id }

  lemma {:induction false} ResponsesAct(c: Client, rs: seq<Response>)
    requires Inv(c) && c.reading && DistinctIds(rs)
    ensures Legal(c, Received(rs)) && Inv(After(c, Received(rs)))
    ensures var c' := After(c, Received(rs));
      && c'.reading && |c'.futures| == |c.futures|
      && (forall id :: id in c'.pending <==> id in c.pending && forall i :: 0 <= i < |rs| ==> rs[i].id != id)
      && (forall k :: 0 <= k < |c.futures| ==>
            (forall i :: 0 <= i < |rs| && rs[i].id == k + 1 ==>
              c'.futures[k]
              == if k + 1 in c.pending then Settle(c.futures[k], Answered(rs[i].payload)) else c.futures[k])
            && ((forall i :: 0 <= i < |rs| ==> rs[i].id != k + 1) ==> c'.futures[k] == c.futures[k]))
    decreases |rs|
  {
    if rs != [] {
      var a := Receive(Document(IntId(rs[0].id), rs[0].payload));
      StepKeepsInv(c, a);
      assert Received(rs)[0] == a && Received(rs)[1..] == Received(rs[1..]);
      ResponsesAct(Apply(c, a), rs[1..]);
      assert rs == [rs[0]] + rs[1..];
    }
  }

  /** Responses with distinct ids may arrive in any order: the resolutions are the same. */
  lemma OrderOfResponsesIrrelevant(c: Client, rs: seq<Response>, ss: seq<Response>)
    requires Inv(c) && c.reading && DistinctIds(rs) && DistinctIds(ss) && (forall r :: r in rs <==> r in ss)
    ensures After(c, Received(rs)) == After(c, Received(ss))
  {
    ResponsesAct(c, rs);
    ResponsesAct(c, ss);
    var a, b := After(c, Received(rs)), After(c, Received(ss));
    forall k | 0 <= k < |c.futures| ensures a.futures[k] == b.futures[k] {
      if i :| 0 <= i < |rs| && rs[i].id == k + 1 {
        assert rs[i] in ss;
        var j :| 0 <= j < |ss| && ss[j] == rs[i];
      } else {
        forall j | 0 <= j < |ss| ensures ss[j].id != k + 1 {
          assert ss[j] in rs;
        }
      }
    }
    forall id ensures id in a.pending <==> id in b.pending {
      forall i | 0 <= i < |rs| ensures exists j :: 0 <= j < |ss| && ss[j] == rs[i] { assert rs[i] in ss; }
      forall j | 0 <= j < |ss| ensures exists i :: 0 <= i < |rs| && rs[i] == ss[j] { assert ss[j] in rs; }
    }
  }

  // ---------------------------------------------------------------- the client object

  class Future {
    var outcome: Resolution

    constructor ()
      ensures outcome == Waiting
    {
      outcome := Waiting;
    }
  }

  class AsyncMcpStdioClient {
    var requestId: nat
    var pendingRequests: map<int, Future>
    var reading: bool
    /** Every future ever handed out, by request. */
    ghost var issued: seq<Future>

    ghost predicate Valid()
      reads this
    {
      && |issued| == requestId
      && (forall i, k :: 0 <= i < k < |issued| ==> issued[i] != issued[k])
      && (forall id :: id in pendingRequests ==> 1 <= id <= requestId && pendingRequests[id] == issued[id - 1])
    }

    ghost function View(): Client
      reads this, issued
    {
      var outcomes := seq(|issued|, i requires 0 <= i < |issued| reads this, issued => issued[i].outcome);
      Client(pendingRequests.Keys, outcomes, reading)
    }

    constructor ()
      ensures Valid() && View() == NEW
    {
      requestId := 0;
      pendingRequests := map[];
      reading := true;
      issued := [];
    }

    /** `_send_request`, up to its await. */
    method SendRequest() returns (id: int, future: Future)
      requires Valid()
      modifies this
      ensures Valid() && View() == Apply(old(View()), Send)
      ensures id == requestId && id in pendingRequests && pendingRequests[id] == future
    {
      requestId := requestId + 1;
      id := requestId;
      future := new Future();
      pendingRequests := pendingRequests[id := future];
      issued := issued + [future];
    }

    /** One turn of `_read_loop`. */
    method ReadLine(line: Line)
      requires Valid() && reading
      modifies this, issued
      ensures Valid() && View() == Apply(old(View()), Receive(line)) && issued == old(issued)
    {
      match line {
        case Document(jsonId, payload) =>
          var respId := KeyOf(jsonId);
          if respId.Some? && respId.value in pendingRequests {
            var future := pendingRequests[respId.value];
            assert future == issued[respId.value - 1] && future in issued;
            pendingRequests := pendingRequests - {respId.value};
            if future.outcome == Waiting {
              future.outcome := Answered(payload);
            }
          }
        case Broken(error) => FailPending(error);
      }
    }

    /** Futures below `upTo` that are still waited for have been failed, and no other. */
    ghost predicate FailedBelow(before: seq<Resolution>, upTo: int, error: string)
      reads this`pendingRequests, this`issued, issued
    {
      |issued| == |before|
      && forall i :: 0 <= i < |issued| ==>
        issued[i].outcome
        == if i + 1 in pendingRequests && i + 1 < upTo then Settle(before[i], Errored(error)) else before[i]
    }

    method FailPending(error: string)
      requires Valid() && reading
      modifies this, issued
      ensures Valid() && View() == FailAll(old(View()), error) && issued == old(issued)
    {
      ghost var before := View();
      for id := 1 to requestId + 1
        invariant Valid() && reading && pendingRequests == old(pendingRequests) && issued == old(issued)
        invariant requestId == old(requestId) && FailedBelow(before.futures, id, error)
      {
        FailFuture(id, before.futures, error);
      }
      reading := false;
      AllFailed(before, error);
    }

    lemma AllFailed(before: Client, error: string)
      requires Valid() && FailedBelow(before.futures, requestId + 1, error)
      requires pendingRequests.Keys == before.pending && !reading
      ensures View() == FailAll(before, error)
    {
      assert View().futures == FailAll(before, error).futures;
    }

    method FailFuture(id: int, ghost before: seq<Resolution>, error: string)
      requires Valid() && 1 <= id <= requestId && FailedBelow(before, id, error)
      modifies issued
      ensures Valid() && FailedBelow(before, id + 1, error)
    {
      if id in pendingRequests {
        var future := pendingRequests[id];
        assert future == issued[id - 1] && future in issued;
        if future.outcome == Waiting {
          future.outcome := Errored(error);
        }
      }
    }
  }
}
