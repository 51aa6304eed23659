/** Terminal surface subscriptions: the reducer's SurfaceSubs and the TerminalRelay's streams, with
    streams that close at any time and close notices that come late or are dropped. */
module Surface {
  type Conn = nat
  type Sid = nat
  /** The identity of one relay subscription (the source's *surfaceSub). */
  type SubId = nat

  const CAP := 8

  datatype Key = Key(conn: Conn, sid: Sid)

  /** `sent` are the sequence numbers of the chunks posted so far; `ended` is set when its goroutine has returned
      after its channel closed. */
  datatype Stream = Stream(key: Key, next: nat, sent: seq<nat>, ended: bool)

  datatype Effect = Start(key: Key) | Stop(key: Key)

  /** A close notice; the source posts the key only, `from` records the stream whose end posted it. */
  datatype Close = Close(key: Key, from: SubId)

  /** `log` are the Start and Stop effects emitted; `notices` are close notices not yet handled. */
  datatype World = World(
    subs: map<Conn, set<Sid>>, relay: map<Key, SubId>, streams: map<SubId, Stream>, nextSub: SubId,
    notices: multiset<Close>, log: seq<Effect>)

  const NEW := World(map[], map[], map[], 0, multiset{}, [])

  predicate Subscribed(w: World, k: Key) { k.conn in w.subs && k.sid in w.subs[k.conn] }

  function SubsOf(w: World, conn: Conn): set<Sid> { if conn in w.subs then w.subs[conn] else {} }

  // ---- the relay ------------------------------------------------------------

  /** Subscribe: nothing when the key has a stream; nothing but an error when the backend refuses. */
  function RelaySubscribe(w: World, k: Key, accepts: bool): World {
    if k in w.relay || !accepts then w else
    w.(relay := w.relay[k := w.nextSub], streams := w.streams[w.nextSub := Stream(k, 0, [], false)],
       nextSub := w.nextSub + 1)
  }

  function RelayUnsubscribe(w: World, k: Key): World { w.(relay := w.relay - {k}) }

  // ---- the reducers and their effects ---------------------------------------

  /** reduceSurfaceSubscribe with its Start effect executed; `found` says whether the session has a head frame. */
  function Subscribe(w: World, k: Key, found: bool, accepts: bool): World {
    var existing := SubsOf(w, k.conn);
    if !found || k.sid in existing || |existing| >= CAP then w else
    RelaySubscribe(w.(subs := w.subs[k.conn := existing + {k.sid}], log := w.log + [Start(k)]), k, accepts)
  }

  function Dropped(subs: map<Conn, set<Sid>>, k: Key): map<Conn, set<Sid>>
    requires k.conn in subs
  {
    if subs[k.conn] == {k.sid} then subs - {k.conn} else subs[k.conn := subs[k.conn] - {k.sid}]
  }

  /** reduceSurfaceUnsubscribe with its Stop effect executed. */
  function Unsubscribe(w: World, k: Key): World {
    if !Subscribed(w, k) then w else
    RelayUnsubscribe(w.(subs := Dropped(w.subs, k), log := w.log + [Stop(k)]), k)
  }

  /** reduceConnClosed: a Stop for every subscription of the connection, in some order. */
  function StopAll(w: World, conn: Conn, order: seq<Sid>): World
    decreases |order|
  {
    if order == [] then w else
    StopAll(RelayUnsubscribe(w.(log := w.log + [Stop(Key(conn, order[0]))]), Key(conn, order[0])), conn, order[1..])
  }

  ghost predicate Lists(order: seq<Sid>, sids: set<Sid>) {
    Distinct(order) && (forall x :: x in order <==> x in sids)
  }

  function ConnClosed(w: World, conn: Conn, order: seq<Sid>): World {
    if conn !in w.subs then w else StopAll(w.(subs := w.subs - {conn}), conn, order)
  }

  // ---- streams --------------------------------------------------------------

  /** fanOut on an output event: the chunk carries the next sequence number. A cancelled goroutine may still post. */
  function Chunk(w: World, id: SubId): World {
    if id !in w.streams || w.streams[id].ended then w else
    var st := w.streams[id];
    w.(streams := w.streams[id := st.(next := st.next + 1, sent := st.sent + [st.next])])
  }

  /** fanOut on a closed channel: the stream leaves the relay if it is still the current one, and a notice is posted
      unless the queue is full. */
  function ChannelClosed(w: World, id: SubId, dropped: bool): World {
    if id !in w.streams || w.streams[id].ended then w else
    var k := w.streams[id].key;
    w.(streams := w.streams[id := w.streams[id].(ended := true)],
       relay := if k in w.relay && w.relay[k] == id then w.relay - {k} else w.relay,
       notices := if dropped then w.notices else w.notices + multiset{Close(k, id)})
  }

  /** internalSurfaceClosed on the loop; it looks at the key only. */
  function Notice(w: World, c: Close): World {
    if c !in w.notices then w else
    Unsubscribe(RelayUnsubscribe(w.(notices := w.notices - multiset{c}), c.key), c.key)
  }

  datatype Step =
    | DoSubscribe(key: Key, found: bool, accepts: bool)
    | DoUnsubscribe(key: Key)
    | DoConnClosed(conn: Conn, order: seq<Sid>)
    | DoChunk(id: SubId)
    | DoChannelClosed(id: SubId, dropped: bool)
    | DoNotice(close: Close)

  ghost predicate Enabled(w: World, step: Step) {
    step.DoConnClosed? && step.conn in w.subs ==> Lists(step.order, w.subs[step.conn])
  }

  ghost function Apply(w: World, step: Step): World {
    if !Enabled(w, step) then w else
    match step
    case DoSubscribe(k, found, accepts) => Subscribe(w, k, found, accepts)
    case DoUnsubscribe(k) => Unsubscribe(w, k)
    case DoConnClosed(conn, order) => ConnClosed(w, conn, order)
    case DoChunk(id) => Chunk(w, id)
    case DoChannelClosed(id, dropped) => ChannelClosed(w, id, dropped)
    case DoNotice(c) => Notice(w, c)
  }

  ghost function Run(steps: seq<Step>): World {
    if steps == [] then NEW else Apply(Run(steps[..|steps| - 1]), steps[|steps| - 1])
  }

  // ---- the invariant --------------------------------------------------------

  /** Starts minus Stops. */
  function Balance(log: seq<Effect>, k: Key): int {
    if log == [] then 0 else
    var last := log[|log| - 1];
    Balance(log[..|log| - 1], k) + if last == Start(k) then 1 else if last == Stop(k) then -1 else 0
  }

  predicate CapOk(subs: map<Conn, set<Sid>>) { forall c | c in subs :: subs[c] != {} && |subs[c]| <= CAP }

  ghost predicate BalanceOk(w: World) { forall k: Key :: Balance(w.log, k) == if Subscribed(w, k) then 1 else 0 }

  /** Relay keys are subscribed, and their streams are open. */
  predicate RelayOk(w: World) {
    forall k | k in w.relay ::
      && Subscribed(w, k) && w.relay[k] in w.streams
      && w.streams[w.relay[k]].key == k && !w.streams[w.relay[k]].ended
  }

  /** Chunks are numbered 0, 1, 2, and so on. */
  predicate Numbered(st: Stream) { |st.sent| == st.next && forall i | 0 <= i < |st.sent| :: st.sent[i] == i }

  predicate StreamsOk(w: World) { forall id | id in w.streams :: id < w.nextSub && Numbered(w.streams[id]) }

  /** Notices come from streams of their key that have ended, and the current stream of a key is its latest. */
  predicate NoticesOk(w: World) {
    && (forall c | c in w.notices :: c.from in w.streams && w.streams[c.from].key == c.key && w.streams[c.from].ended)
    && (forall k, id | k in w.relay && id in w.streams && w.streams[id].key == k :: id <= w.relay[k])
  }

  ghost predicate Ok(w: World) { CapOk(w.subs) && BalanceOk(w) && RelayOk(w) && StreamsOk(w) && NoticesOk(w) }

  lemma BalanceSnoc(log: seq<Effect>, e: Effect, k: Key)
    ensures Balance(log + [e], k) == Balance(log, k) + if e == Start(k) then 1 else if e == Stop(k) then -1 else 0
  {
    assert (log + [e])[..|log|] == log;
  }

  lemma AddedSize(a: set<Sid>, x: Sid)
    requires x !in a
    ensures |a + {x}| == |a| + 1
  {
  }

  lemma RemovedSize(a: set<Sid>, x: Sid)
    requires x in a
    ensures |a - {x}| < |a|
  {
  }

  lemma SubscribeCap(subs: map<Conn, set<Sid>>, conn: Conn, existing: set<Sid>, sid: Sid)
    requires CapOk(subs) && sid !in existing && |existing| < CAP
    ensures CapOk(subs[conn := existing + {sid}])
  {
    AddedSize(existing, sid);
    assert sid in existing + {sid};
  }

  /** The state between the reducer and the relay. */
  function Recorded(w: World, k: Key): World {
    w.(subs := w.subs[k.conn := SubsOf(w, k.conn) + {k.sid}], log := w.log + [Start(k)])
  }

  lemma RecordedBalance(w: World, k: Key)
    requires BalanceOk(w) && k.sid !in SubsOf(w, k.conn)
    ensures BalanceOk(Recorded(w, k))
  {
    forall x: Key ensures Balance(Recorded(w, k).log, x) == if Subscribed(Recorded(w, k), x) then 1 else 0 {
      assert Balance(w.log, x) == if Subscribed(w, x) then 1 else 0;
      BalanceSnoc(w.log, Start(k), x);
    }
  }

  lemma RecordedRelay(w: World, k: Key)
    requires RelayOk(w)
    ensures RelayOk(Recorded(w, k)) && Subscribed(Recorded(w, k), k)
  {
  }

  lemma RelaySubscribeOk(w: World, k: Key, accepts: bool)
    requires Ok(w) && Subscribed(w, k)
    ensures Ok(RelaySubscribe(w, k, accepts))
  {
    var w' := RelaySubscribe(w, k, accepts);
    forall x: Key ensures Balance(w'.log, x) == if Subscribed(w', x) then 1 else 0 {
      assert Balance(w.log, x) == if Subscribed(w, x) then 1 else 0;
    }
  }

  lemma SubscribeOk(w: World, k: Key, found: bool, accepts: bool)
    requires Ok(w)
    ensures Ok(Subscribe(w, k, found, accepts))
  {
    var existing := SubsOf(w, k.conn);
    if found && k.sid !in existing && |existing| < CAP {
      SubscribeCap(w.subs, k.conn, existing, k.sid);
      RecordedBalance(w, k);
      RecordedRelay(w, k);
      RelaySubscribeOk(Recorded(w, k), k, accepts);
    }
  }

  lemma UnsubscribeOk(w: World, k: Key)
    requires Ok(w)
    ensures Ok(Unsubscribe(w, k))
  {
    if Subscribed(w, k) {
      RemovedSize(w.subs[k.conn], k.sid);
      var w' := Unsubscribe(w, k);
      forall x: Key ensures Balance(w'.log, x) == if Subscribed(w', x) then 1 else 0 {
        assert Balance(w.log, x) == if Subscribed(w, x) then 1 else 0;
        BalanceSnoc(w.log, Stop(k), x);
      }
    }
  }

  lemma {:induction false} StopAllFrame(w: World, conn: Conn, order: seq<Sid>)
    ensures var w' := StopAll(w, conn, order);
            w'.subs == w.subs && w'.streams == w.streams && w'.nextSub == w.nextSub && w'.notices == w.notices
    decreases |order|
  {
    if order != [] {
      var k := Key(conn, order[0]);
      StopAllFrame(RelayUnsubscribe(w.(log := w.log + [Stop(k)]), k), conn, order[1..]);
    }
  }

  lemma {:induction false} StopAllRelay(w: World, conn: Conn, order: seq<Sid>, x: Key)
    ensures var w' := StopAll(w, conn, order);
            && (x in w'.relay <==> x in w.relay && !(x.conn == conn && x.sid in order))
            && (x in w'.relay ==> w'.relay[x] == w.relay[x])
    decreases |order|
  {
    if order != [] {
      var k := Key(conn, order[0]);
      StopAllRelay(RelayUnsubscribe(w.(log := w.log + [Stop(k)]), k), conn, order[1..], x);
      assert order == [order[0]] + order[1..];
    }
  }

  predicate Distinct(order: seq<Sid>) { forall i, j | 0 <= i < j < |order| :: order[i] != order[j] }

  lemma DistinctTail(order: seq<Sid>)
    requires order != [] && Distinct(order)
    ensures Distinct(order[1..]) && order[0] !in order[1..]
    ensures forall x :: x in order <==> x == order[0] || x in order[1..]
  {
    assert order == [order[0]] + order[1..];
    assert forall i | 0 <= i < |order| - 1 :: order[1..][i] == order[i + 1];
  }

  lemma {:induction false} StopAllBalance(w: World, conn: Conn, order: seq<Sid>, x: Key)
    requires Distinct(order)
    ensures Balance(StopAll(w, conn, order).log, x)
            == Balance(w.log, x) - (if x.conn == conn && x.sid in order then 1 else 0)
    decreases |order|
  {
    if order != [] {
      var k := Key(conn, order[0]);
      var w1 := RelayUnsubscribe(w.(log := w.log + [Stop(k)]), k);
      BalanceSnoc(w.log, Stop(k), x);
      DistinctTail(order);
      StopAllBalance(w1, conn, order[1..], x);
      assert StopAll(w, conn, order) == StopAll(w1, conn, order[1..]);
    }
  }

  lemma ConnClosedOk(w: World, conn: Conn, order: seq<Sid>)
    requires Ok(w) && (conn in w.subs ==> Lists(order, w.subs[conn]))
    ensures Ok(ConnClosed(w, conn, order))
  {
    if conn in w.subs {
      var w1 := w.(subs := w.subs - {conn});
      var w' := ConnClosed(w, conn, order);
      StopAllFrame(w1, conn, order);
      forall x: Key ensures Balance(w'.log, x) == if Subscribed(w', x) then 1 else 0 {
        assert Balance(w.log, x) == if Subscribed(w, x) then 1 else 0;
        StopAllBalance(w1, conn, order, x);
      }
      forall x | x in w'.relay
        ensures x in w.relay && w'.relay[x] == w.relay[x] && Subscribed(w', x)
      {
        StopAllRelay(w1, conn, order, x);
      }
    }
  }

  lemma ChunkOk(w: World, id: SubId)
    requires Ok(w)
    ensures Ok(Chunk(w, id))
  {
  }

  lemma ChannelClosedOk(w: World, id: SubId, dropped: bool)
    requires Ok(w)
    ensures Ok(ChannelClosed(w, id, dropped))
  {
  }

  lemma NoticeOk(w: World, c: Close)
    requires Ok(w)
    ensures Ok(Notice(w, c))
  {
    if c in w.notices {
      UnsubscribeOk(RelayUnsubscribe(w.(notices := w.notices - multiset{c}), c.key), c.key);
    }
  }

  /** Over whole runs: at most 8 subscriptions a connection and no empty set; Starts minus Stops is 1 for a
      subscribed pair and 0 for any other; relay keys are subscribed and open; chunks are numbered from 0. */
  lemma {:induction false} RunOk(steps: seq<Step>)
    ensures Ok(Run(steps))
    decreases |steps|
  {
    if steps != [] {
      var w := Run(steps[..|steps| - 1]);
      RunOk(steps[..|steps| - 1]);
      match steps[|steps| - 1]
      case DoSubscribe(k, found, accepts) => SubscribeOk(w, k, found, accepts);
      case DoUnsubscribe(k) => UnsubscribeOk(w, k);
      case DoConnClosed(conn, order) =>
        if conn !in w.subs || Lists(order, w.subs[conn]) { ConnClosedOk(w, conn, order); }
      case DoChunk(id) => ChunkOk(w, id);
      case DoChannelClosed(id, dropped) => ChannelClosedOk(w, id, dropped);
      case DoNotice(c) => NoticeOk(w, c);
    }
  }

  // ---- what each step does to one key ---------------------------------------

  /** Whether a subscribe is granted: the session has a head frame, the key is not subscribed, and its connection has
      fewer than 8 subscriptions. */
  predicate Granted(w: World, k: Key, found: bool) {
    found && !Subscribed(w, k) && |SubsOf(w, k.conn)| < 8
  }

  /** Whether a key is subscribed after a step. */
  predicate SubscribedNext(w: World, step: Step, k: Key) {
    match step
    case DoSubscribe(x, found, _) => Subscribed(w, k) || (k == x && Granted(w, x, found))
    case DoUnsubscribe(x) => Subscribed(w, k) && k != x
    case DoConnClosed(conn, _) => Subscribed(w, k) && k.conn != conn
    case DoNotice(c) => Subscribed(w, k) && !(c in w.notices && k == c.key)
    case _ => Subscribed(w, k)
  }

  /** Whether the relay has a stream for a key after a step. */
  predicate RelayedNext(w: World, step: Step, k: Key) {
    match step
    case DoSubscribe(x, found, accepts) => k in w.relay || (k == x && Granted(w, x, found) && accepts)
    case DoChannelClosed(id, _) => k in w.relay && !(id in w.streams && !w.streams[id].ended && w.relay[k] == id)
    case _ => k in w.relay && SubscribedNext(w, step, k)
  }

  lemma SubscribeRule(w: World, x: Key, found: bool, accepts: bool, k: Key)
    requires RelayOk(w)
    ensures var step, w' := DoSubscribe(x, found, accepts), Subscribe(w, x, found, accepts);
            && (Subscribed(w', k) <==> SubscribedNext(w, step, k)) && (k in w'.relay <==> RelayedNext(w, step, k))
            && w'.log == w.log + (if Granted(w, x, found) then [Start(x)] else [])
            && (k in w'.relay ==> w'.relay[k] == if k in w.relay then w.relay[k] else w.nextSub)
  {
  }

  lemma UnsubscribeRule(w: World, x: Key, k: Key)
    requires RelayOk(w)
    ensures var w' := Unsubscribe(w, x);
            && (Subscribed(w', k) <==> Subscribed(w, k) && k != x) && (k in w'.relay <==> k in w.relay && k != x)
            && w'.log == w.log + (if Subscribed(w, x) then [Stop(x)] else [])
            && (k in w'.relay ==> w'.relay[k] == w.relay[k])
  {
  }

  lemma ConnClosedRule(w: World, conn: Conn, order: seq<Sid>, k: Key)
    requires RelayOk(w) && (conn in w.subs ==> Lists(order, w.subs[conn]))
    ensures var w' := ConnClosed(w, conn, order);
            && (Subscribed(w', k) <==> Subscribed(w, k) && k.conn != conn)
            && (k in w'.relay <==> k in w.relay && k.conn != conn) && (k in w'.relay ==> w'.relay[k] == w.relay[k])
  {
    if conn in w.subs {
      StopAllRelay(w.(subs := w.subs - {conn}), conn, order, k);
      StopAllFrame(w.(subs := w.subs - {conn}), conn, order);
    }
  }

  lemma NoticeRule(w: World, c: Close, k: Key)
    requires RelayOk(w) && c in w.notices
    ensures var w' := Notice(w, c);
            && (Subscribed(w', k) <==> Subscribed(w, k) && k != c.key)
            && (k in w'.relay <==> k in w.relay && k != c.key)
            && (k in w'.relay ==> w'.relay[k] == w.relay[k])
  {
    UnsubscribeRule(RelayUnsubscribe(w.(notices := w.notices - multiset{c}), c.key), c.key, k);
  }

  /** After any run, any step: a key is subscribed, and has a stream, exactly when the step says so; a stream the relay
      had for it stays the same one. */
  lemma StepByRule(steps: seq<Step>, step: Step, k: Key)
    requires Enabled(Run(steps), step)
    ensures var w, w' := Run(steps), Run(steps + [step]);
            && (Subscribed(w', k) <==> SubscribedNext(w, step, k)) && (k in w'.relay <==> RelayedNext(w, step, k))
            && (k in w.relay && k in w'.relay ==> w'.relay[k] == w.relay[k])
  {
    var w := Run(steps);
    RunOk(steps);
    assert (steps + [step])[..|steps|] == steps;
    match step
    case DoSubscribe(x, found, accepts) => SubscribeRule(w, x, found, accepts, k);
    case DoUnsubscribe(x) => UnsubscribeRule(w, x, k);
    case DoConnClosed(conn, order) => ConnClosedRule(w, conn, order, k);
    case DoChunk(_) =>
    case DoChannelClosed(id, _) =>
    case DoNotice(c) => if c in w.notices { NoticeRule(w, c, k); }
  }

  /** Every output event of an open stream is posted as one chunk with the next number; nothing else changes. */
  lemma ChunkPosted(w: World, id: SubId)
    requires Ok(w) && id in w.streams && !w.streams[id].ended
    ensures var w' := Apply(w, DoChunk(id));
            && w' == w.(streams := w'.streams) && w'.streams.Keys == w.streams.Keys
            && (forall x | x in w.streams && x != id :: w'.streams[x] == w.streams[x])
            && w'.streams[id].sent == w.streams[id].sent + [|w.streams[id].sent|] && !w'.streams[id].ended
  {
    assert Numbered(w.streams[id]);
  }

  lemma NoticeCuts(w: World, c: Close)
    requires Ok(w) && c in w.notices
    ensures var w' := Notice(w, c);
            && w'.relay == w.relay - {c.key} && !Subscribed(w', c.key) && c.from in w.streams
            && (c.key in w.relay ==>
                  && w.relay[c.key] in w.streams && !w.streams[w.relay[c.key]].ended && Subscribed(w, c.key)
                  && w.relay[c.key] > c.from && w.streams[c.from].ended)
  {
  }

  /** Handling a notice takes an open stream out of the relay if and only if its key is there; that stream is open, was
      started after the one whose end posted the notice, and its subscription is gone as well. No other stream is
      hit. */
  lemma LateNoticeCutsExactly(steps: seq<Step>, c: Close)
    requires c in Run(steps).notices
    ensures var w := Run(steps);
            var w' := Notice(w, c);
            && w'.relay == w.relay - {c.key} && !Subscribed(w', c.key)
            && ((exists k :: k in w.relay && k !in w'.relay) <==> c.key in w.relay)
            && (c.key in w.relay ==>
                  && w.relay[c.key] in w.streams && !w.streams[w.relay[c.key]].ended && Subscribed(w, c.key)
                  && w.relay[c.key] > c.from && c.from in w.streams && w.streams[c.from].ended)
  {
    RunOk(steps);
    NoticeCuts(Run(steps), c);
    assert c.key in Run(steps).relay ==> c.key !in Notice(Run(steps), c).relay;
  }

  lemma RunOne(steps: seq<Step>, step: Step)
    ensures Run(steps + [step]) == Apply(Run(steps), step)
  {
    assert (steps + [step])[..|steps|] == steps;
  }

  /** Subscribe; the stream ends and posts its notice; unsubscribe and subscribe again before the loop handles it. */
  function Late(k: Key): seq<Step> {
    [] + [DoSubscribe(k, true, true)] + [DoChannelClosed(0, false)] + [DoUnsubscribe(k)] + [DoSubscribe(k, true, true)]
  }

  /** Such a run exists for every connection and session: the notice of stream 0 cuts off stream 1. */
  lemma LateNoticeHappens(k: Key)
    ensures var w := Run(Late(k));
            Close(k, 0) in w.notices && k in w.relay && w.relay[k] == 1 && k !in Notice(w, Close(k, 0)).relay
  {
    var s1 := [] + [DoSubscribe(k, true, true)];
    var s2 := s1 + [DoChannelClosed(0, false)];
    var s3 := s2 + [DoUnsubscribe(k)];
    RunOne([], DoSubscribe(k, true, true));
    RunOne(s1, DoChannelClosed(0, false));
    RunOne(s2, DoUnsubscribe(k));
    RunOne(s3, DoSubscribe(k, true, true));
    assert Run(s1) == Subscribe(NEW, k, true, true) && k in Run(s1).relay && Run(s1).subs == map[k.conn := {k.sid}];
    assert k !in Run(s2).relay && Close(k, 0) in Run(s2).notices && Run(s2).subs == map[k.conn := {k.sid}];
    assert Run(s3).subs == map[] && Run(s3).nextSub == 1 && Close(k, 0) in Run(s3).notices;
    LateNoticeCutsExactly(Late(k), Close(k, 0));
  }

  // ---- the imperative relay and reducers ------------------------------------

  class TerminalRelay {
    var subs: map<Conn, set<Sid>>
    var relay: map<Key, SubId>
    var streams: map<SubId, Stream>
    var nextSub: SubId
    var notices: multiset<Close>
    var log: seq<Effect>

    ghost function View(): World
      reads this
    {
      World(subs, relay, streams, nextSub, notices, log)
    }

    constructor ()
      ensures View() == NEW
    {
      subs, relay, streams, nextSub, notices, log := map[], map[], map[], 0, multiset{}, [];
    }

    method SubscribeStream(k: Key, accepts: bool)
      modifies this`relay, this`streams, this`nextSub
      ensures View() == RelaySubscribe(old(View()), k, accepts)
    {
      if k in relay {
        return;
      }
      if !accepts {
        return;
      }
      streams := streams[nextSub := Stream(k, 0, [], false)];
      relay := relay[k := nextSub];
      nextSub := nextSub + 1;
    }

    method UnsubscribeStream(k: Key)
      modifies this`relay
      ensures View() == RelayUnsubscribe(old(View()), k)
    {
      if k !in relay {
        assert relay - {k} == relay;
        return;
      }
      relay := relay - {k};
    }

    /** reduceConnClosed, its loop over the inner set and the Stops it emits. */
    method CloseConn(conn: Conn) returns (ghost order: seq<Sid>)
      modifies this
      ensures conn in old(subs) ==> Lists(order, old(subs)[conn])
      ensures View() == ConnClosed(old(View()), conn, order)
    {
      order := [];
      if conn !in subs {
        return;
      }
      var inner := subs[conn];
      subs := subs - {conn};
      ghost var start := View();
      var todo := inner;
      while todo != {}
        invariant todo <= inner && Lists(order, inner - todo)
        invariant View() == StopAll(start, conn, order)
        decreases todo
      {
        var sid :| sid in todo;
        todo := todo - {sid};
        log := log + [Stop(Key(conn, sid))];
        UnsubscribeStream(Key(conn, sid));
        StopAllSnoc(start, conn, order, sid);
        order := order + [sid];
      }
    }

    /** fanOut, one event of its channel. */
    method FanOut(id: SubId, output: bool, dropped: bool)
      modifies this`streams, this`relay, this`notices
      ensures View() == if output then Chunk(old(View()), id) else ChannelClosed(old(View()), id, dropped)
    {
      if id !in streams || streams[id].ended {
        return;
      }
      var st := streams[id];
      if output {
        var seqno := st.next;
        streams := streams[id := st.(next := seqno + 1, sent := st.sent + [seqno])];
        return;
      }
      streams := streams[id := st.(ended := true)];
      if st.key in relay && relay[st.key] == id {
        relay := relay - {st.key};
      }
      if !dropped {
        notices := notices + multiset{Close(st.key, id)};
      }
    }
  }

  lemma {:induction false} StopAllSnoc(w: World, conn: Conn, order: seq<Sid>, sid: Sid)
    ensures var w1 := StopAll(w, conn, order);
            StopAll(w, conn, order + [sid])
            == RelayUnsubscribe(w1.(log := w1.log + [Stop(Key(conn, sid))]), Key(conn, sid))
    decreases |order|
  {
    if order == [] {
      assert order + [sid] == [sid] && [sid][1..] == [];
    } else {
      assert (order + [sid])[0] == order[0] && (order + [sid])[1..] == order[1..] + [sid];
      StopAllSnoc(RelayUnsubscribe(w.(log := w.log + [Stop(Key(conn, order[0]))]), Key(conn, order[0])), conn,
                  order[1..], sid);
    }
  }
}
