/**
  Serialisability: without the cleaner, any interleaving of all watchers' calls and the
  consumer's inserts leaves the table, each wallet's messages and each wallet's sends as some
  serial order of whole Ticks and arrivals does. The order is built from the run itself.
*/
module Serial {
  import opened Types
  import opened Watcher
  import opened System
  import opened Rows
  import opened Solo

  datatype Atom = Whole(w: nat, replies: seq<Reply>) | Arrival(row: Row)

  function Execute(cfg: Config, atoms: seq<Atom>): Store {
    if atoms == [] then Store(map[], [], [])
    else
      var before := Execute(cfg, atoms[..|atoms|-1]);
      match atoms[|atoms|-1]
      case Whole(w, replies) => Run(cfg, w, before, replies).store
      case Arrival(row) => Arrived(before, row)
  }

  /** Each Tick runs alone, from rest to rest, its queries answered by the table it finds; each arrival is new. */
  ghost predicate Serial(cfg: Config, atoms: seq<Atom>) {
    atoms != [] ==>
      var before := Execute(cfg, atoms[..|atoms|-1]);
      && Serial(cfg, atoms[..|atoms|-1])
      && match atoms[|atoms|-1]
         case Whole(w, replies) =>
           replies != [] && RunOk(cfg, w, before, replies) && Run(cfg, w, before, replies).pc.Idle?
         case Arrival(row) => row.Pending() && row.id !in before.rows
  }

  /**
    The serial order found so far, each wallet's replies in the Tick under way, and the rows that
    arrived for it after it had chosen one, which go after that Tick.
  */
  datatype Plan = Plan(atoms: seq<Atom>, current: seq<seq<Reply>>, late: seq<seq<Row>>)

  function Arrivals(rows: seq<Row>): seq<Atom> {
    if rows == [] then [] else Arrivals(rows[..|rows|-1]) + [Arrival(rows[|rows|-1])]
  }

  /** A call of wallet w: a Tick that ends goes into the order, and the rows that waited for it after it. */
  function ExtendWatch(p: Plan, w: nat, reply: Reply, ends: bool): Plan
    requires w < |p.current| == |p.late|
  {
    var replies := p.current[w] + [reply];
    if ends then Plan(p.atoms + [Whole(w, replies)] + Arrivals(p.late[w]), p.current[w := []], p.late[w := []])
    else p.(current := p.current[w := replies])
  }

  function ExtendInsert(p: Plan, row: Row, late: bool): Plan
    requires row.wallet < |p.late|
  {
    if late then p.(late := p.late[row.wallet := p.late[row.wallet] + [row]])
    else p.(atoms := p.atoms + [Arrival(row)])
  }

  function Extend(cfg: Config, s: World, p: Plan, a: Action): Plan
    requires |p.current| == |p.late| == |s.pcs|
  {
    match a
    case Watch(w, reply) =>
      if w < |s.pcs| then ExtendWatch(p, w, reply, Next(cfg, w, s.pcs[w], reply).Idle?) else p
    case Insert(row) =>
      if row.id in s.store.rows || row.wallet >= |s.pcs| then p      // a duplicate changes nothing
      else ExtendInsert(p, row, PastPick(s.pcs[row.wallet]))
    case _ => p
  }

  lemma {:induction false} PcsLength(cfg: Config, run: seq<Action>)
    ensures |After(cfg, run).pcs| == |After(cfg, run).seen| == |cfg.senders|
  {
    if run != [] {
      PcsLength(cfg, run[..|run|-1]);
    }
  }

  function PlanOf(cfg: Config, run: seq<Action>): (p: Plan)
    ensures |p.current| == |p.late| == |cfg.senders|
  {
    if run == [] then
      Plan([], seq(|cfg.senders|, _ => []), seq(|cfg.senders|, _ => []))
    else
      PcsLength(cfg, run[..|run|-1]);
      Extend(cfg, After(cfg, run[..|run|-1]), PlanOf(cfg, run[..|run|-1]), run[|run|-1])
  }

  function ArrivedAll(store: Store, rows: seq<Row>): Store {
    if rows == [] then store else Arrived(ArrivedAll(store, rows[..|rows|-1]), rows[|rows|-1])
  }

  /** Rows waiting to arrive: of the wallet, new to the store, distinct, and inserted in the run. */
  ghost predicate Waiting(rows: seq<Row>, store: Store, born: Table, w: nat) {
    && (forall i :: 0 <= i < |rows| ==>
          rows[i].Pending() && rows[i].wallet == w && rows[i].id !in store.rows
          && InWallet(born, rows[i].id, w))
    && (forall i, j :: 0 <= i < j < |rows| ==> rows[i].id != rows[j].id)
  }

  /** The wallet's part of the run, at the store `z` of the serial order. */
  ghost predicate Simulates(cfg: Config, born: Table, z: Store, s: Store, w: nat, pc: Pc, replies: seq<Reply>, late: seq<Row>) {
    var stage := Run(cfg, w, z, replies);
    && RunOk(cfg, w, z, replies)
    && (if replies == [] then pc.Idle? else stage.pc == pc && !pc.Idle?)
    && (late != [] ==> PastPick(pc))
    && Waiting(late, z, born, w)
    && (pc.At? ==> forall i :: 0 <= i < |late| ==> late[i].id != pc.row.id)
    && Agree(s, ArrivedAll(stage.store, late), w)
  }

  // ---------------------------------------------------------------- arrivals in bulk

  lemma {:induction false} StepArrivals(cfg: Config, w: nat, store: Store, pc: Pc, reply: Reply, rows: seq<Row>)
    requires pc.At? ==> forall i :: 0 <= i < |rows| ==> rows[i].id != pc.row.id
    ensures
      Effect(ArrivedAll(store, rows), w, Ask(cfg, w, pc), reply)
      == ArrivedAll(Effect(store, w, Ask(cfg, w, pc), reply), rows)
  {
    if rows != [] {
      var before := rows[..|rows|-1];
      StepArrivals(cfg, w, store, pc, reply, before);
      StepArrival(cfg, w, ArrivedAll(store, before), pc, reply, rows[|rows|-1]);
    }
  }

  lemma {:induction false} ArrivalsTyped(store: Store, rows: seq<Row>, born: Table, w: nat)
    requires Typed(store.rows, born)
    requires forall i :: 0 <= i < |rows| ==> rows[i].wallet == w && InWallet(born, rows[i].id, w)
    ensures Typed(ArrivedAll(store, rows).rows, born)
  {
    if rows != [] {
      ArrivalsTyped(store, rows[..|rows|-1], born, w);
    }
  }

  lemma ArrivalElsewhere(store: Store, row: Row, born: Table, v: nat)
    requires Typed(store.rows, born) && row.id in born && born[row.id].wallet == row.wallet != v
    ensures Agree(store, Arrived(store, row), v)
  {
    forall id: Id ensures InWallet(store.rows, id, v) <==> InWallet(Arrived(store, row).rows, id, v) {
    }
  }

  lemma {:induction false} ArrivalsElsewhere(store: Store, rows: seq<Row>, born: Table, w: nat, v: nat)
    requires Typed(store.rows, born) && v != w
    requires forall i :: 0 <= i < |rows| ==> rows[i].wallet == w && InWallet(born, rows[i].id, w)
    ensures Agree(store, ArrivedAll(store, rows), v)
  {
    if rows != [] {
      var before := rows[..|rows|-1];
      ArrivalsElsewhere(store, before, born, w, v);
      ArrivalsTyped(store, before, born, w);
      ArrivalElsewhere(ArrivedAll(store, before), rows[|rows|-1], born, v);
      AgreeTrans(store, ArrivedAll(store, before), ArrivedAll(store, rows), v);
    }
  }

  lemma {:induction false} NotArrived(store: Store, rows: seq<Row>, id: Id)
    requires id !in store.rows && forall i :: 0 <= i < |rows| ==> rows[i].id != id
    ensures id !in ArrivedAll(store, rows).rows
  {
    if rows != [] {
      NotArrived(store, rows[..|rows|-1], id);
    }
  }

  lemma ExecuteArrival(cfg: Config, atoms: seq<Atom>, row: Row)
    requires Serial(cfg, atoms) && row.Pending() && row.id !in Execute(cfg, atoms).rows
    ensures Serial(cfg, atoms + [Arrival(row)]) && Execute(cfg, atoms + [Arrival(row)]) == Arrived(Execute(cfg, atoms), row)
  {
    assert (atoms + [Arrival(row)])[..|atoms|] == atoms;
  }

  /** Executing the arrivals puts the rows in the table. */
  lemma {:induction false} ExecuteArrivals(cfg: Config, atoms: seq<Atom>, rows: seq<Row>, born: Table, w: nat)
    requires Serial(cfg, atoms) && Waiting(rows, Execute(cfg, atoms), born, w)
    ensures Serial(cfg, atoms + Arrivals(rows))
    ensures Execute(cfg, atoms + Arrivals(rows)) == ArrivedAll(Execute(cfg, atoms), rows)
  {
    if rows == [] {
      assert atoms + Arrivals(rows) == atoms;
    } else {
      var before, last := rows[..|rows|-1], rows[|rows|-1];
      ExecuteArrivals(cfg, atoms, before, born, w);
      NotArrived(Execute(cfg, atoms), before, last.id);
      ExecuteArrival(cfg, atoms + Arrivals(before), last);
      assert atoms + Arrivals(rows) == atoms + Arrivals(before) + [Arrival(last)];
    }
  }

  // ---------------------------------------------------------------- the simulation

  /** Every wallet but `w` is simulated; every wallet, when `w` is none of them. */
  ghost predicate AllBut(cfg: Config, born: Table, z: Store, s: Store, pcs: seq<Pc>, p: Plan, w: nat) {
    && |p.current| == |p.late| == |pcs|
    && forall v :: 0 <= v < |pcs| && v != w ==> Simulates(cfg, born, z, s, v, pcs[v], p.current[v], p.late[v])
  }

  /** The plan follows the run: its serial order executes, and each wallet's part of the run is accounted for. */
  ghost predicate Follows(cfg: Config, born: Table, s: Store, pcs: seq<Pc>, p: Plan) {
    && Serial(cfg, p.atoms)
    && Typed(Execute(cfg, p.atoms).rows, born)
    && AllBut(cfg, born, Execute(cfg, p.atoms), s, pcs, p, |pcs|)
  }

  ghost predicate AgreeBut(a: Store, b: Store, w: nat) {
    forall v: nat :: v != w ==> Agree(a, b, v)
  }

  /** Another wallet's part stays simulated when the serial store changes elsewhere. */
  lemma SimulatesElsewhere(cfg: Config, born: Table, z: Store, z': Store, s: Store, s': Store, v: nat, pc: Pc,
                           replies: seq<Reply>, late: seq<Row>)
    requires Simulates(cfg, born, z, s, v, pc, replies, late)
    requires Typed(z.rows, born) && Typed(z'.rows, born)
    requires Agree(z, z', v) && Agree(s, s', v)
    ensures Simulates(cfg, born, z', s', v, pc, replies, late)
  {
    RunAgree(cfg, v, born, z, z', replies);
    var a, b := Run(cfg, v, z, replies).store, Run(cfg, v, z', replies).store;
    ArrivalsAgree(a, b, late, v);
    AgreeSym(s, s', v);
    AgreeTrans(s', s, ArrivedAll(a, late), v);
    AgreeTrans(s', ArrivedAll(a, late), ArrivedAll(b, late), v);
    forall i | 0 <= i < |late| ensures late[i].id !in z'.rows {
      assert late[i].id in z'.rows ==> InWallet(z'.rows, late[i].id, v);
      assert InWallet(z.rows, late[i].id, v) <==> InWallet(z'.rows, late[i].id, v);
    }
  }

  lemma {:induction false} ArrivalsAgree(a: Store, b: Store, rows: seq<Row>, v: nat)
    requires Agree(a, b, v)
    ensures Agree(ArrivedAll(a, rows), ArrivedAll(b, rows), v)
  {
    if rows != [] {
      var before, last := rows[..|rows|-1], rows[|rows|-1];
      ArrivalsAgree(a, b, before, v);
      ArrivalAgrees(ArrivedAll(a, before), ArrivedAll(b, before), last, v);
    }
  }

  lemma ArrivalAgrees(a: Store, b: Store, row: Row, v: nat)
    requires Agree(a, b, v)
    ensures Agree(Arrived(a, row), Arrived(b, row), v)
  {
    forall id: Id ensures InWallet(Arrived(a, row).rows, id, v) <==> InWallet(Arrived(b, row).rows, id, v) {
      assert InWallet(a.rows, id, v) <==> InWallet(b.rows, id, v);
    }
    forall id: Id | InWallet(Arrived(a, row).rows, id, v)
      ensures Arrived(a, row).rows[id] == Arrived(b, row).rows[id]
    {
      assert id != row.id ==> InWallet(a.rows, id, v);
    }
  }

  /** Start of a Tick or not, the run alone is where the watcher is, as far as its next call goes. */
  lemma SamePoint(cfg: Config, w: nat, z: Store, pc: Pc, replies: seq<Reply>, reply: Reply)
    requires if replies == [] then pc.Idle? else Run(cfg, w, z, replies).pc == pc
    ensures
      var stage := Run(cfg, w, z, replies);
      Ask(cfg, w, stage.pc) == Ask(cfg, w, pc) && Next(cfg, w, stage.pc, reply) == Next(cfg, w, pc, reply)
  {
  }

  /** One more call: the run alone takes it too, with the late rows still to come. */
  lemma SimulatesStep(cfg: Config, born: Table, z: Store, s: Store, w: nat, pc: Pc, replies: seq<Reply>,
                      late: seq<Row>, reply: Reply)
    requires Simulates(cfg, born, z, s, w, pc, replies, late)
    requires Typed(z.rows, born) && Typed(s.rows, born)
    requires Answered(s, w, Ask(cfg, w, pc), reply)
    ensures RunOk(cfg, w, z, replies + [reply])
    ensures
      var stage' := Run(cfg, w, z, replies + [reply]);
      && stage'.pc == Next(cfg, w, pc, reply)
      && Agree(Effect(s, w, Ask(cfg, w, pc), reply), ArrivedAll(stage'.store, late), w)
  {
    var stage := Run(cfg, w, z, replies);
    assert (replies + [reply])[..|replies|] == replies;
    SamePoint(cfg, w, z, pc, replies, reply);
    QueriesAt(cfg, w, pc);
    RunTyped(cfg, w, born, z, replies);
    ArrivalsTyped(stage.store, late, born, w);
    StepAgree(cfg, w, born, s, ArrivedAll(stage.store, late), stage.pc, reply);
    StepArrivals(cfg, w, stage.store, stage.pc, reply, late);
  }

  lemma SimulatesGoesOn(cfg: Config, born: Table, z: Store, s: Store, w: nat, pc: Pc, replies: seq<Reply>,
                        late: seq<Row>, reply: Reply)
    requires Simulates(cfg, born, z, s, w, pc, replies, late)
    requires Typed(z.rows, born) && Typed(s.rows, born)
    requires Answered(s, w, Ask(cfg, w, pc), reply) && !Next(cfg, w, pc, reply).Idle?
    ensures Simulates(cfg, born, z, Effect(s, w, Ask(cfg, w, pc), reply), w, Next(cfg, w, pc, reply), replies + [reply], late)
  {
    SimulatesStep(cfg, born, z, s, w, pc, replies, late, reply);
    if late != [] {
      PastPickStays(cfg, w, pc, reply);
      RowInMemory(cfg, w, pc.row, pc.point, reply);
    }
  }

  lemma {:induction false} RunShrinks(cfg: Config, w: nat, store: Store, replies: seq<Reply>)
    ensures Run(cfg, w, store, replies).store.rows.Keys <= store.rows.Keys
  {
    if replies != [] {
      RunShrinks(cfg, w, store, replies[..|replies|-1]);
    }
  }

  /** The Tick ends: it goes into the serial order, and the late rows after it. */
  lemma Commit(cfg: Config, born: Table, atoms: seq<Atom>, s: Store, w: nat, pc: Pc, replies: seq<Reply>,
               late: seq<Row>, reply: Reply)
    requires Serial(cfg, atoms) && Simulates(cfg, born, Execute(cfg, atoms), s, w, pc, replies, late)
    requires Typed(Execute(cfg, atoms).rows, born) && Typed(s.rows, born)
    requires Answered(s, w, Ask(cfg, w, pc), reply) && Next(cfg, w, pc, reply).Idle?
    ensures
      var atoms' := atoms + [Whole(w, replies + [reply])] + Arrivals(late);
      var z, z' := Execute(cfg, atoms), Execute(cfg, atoms');
      && Serial(cfg, atoms') && Typed(z'.rows, born)
      && Agree(Effect(s, w, Ask(cfg, w, pc), reply), z', w)
      && AgreeBut(z, z', w)
  {
    var z, whole := Execute(cfg, atoms), atoms + [Whole(w, replies + [reply])];
    SimulatesStep(cfg, born, z, s, w, pc, replies, late, reply);
    assert whole[..|atoms|] == atoms;
    assert (replies + [reply])[..|replies|] == replies;
    var z1 := Execute(cfg, whole);
    RunTyped(cfg, w, born, z, replies + [reply]);
    RunShrinks(cfg, w, z, replies + [reply]);
    ExecuteArrivals(cfg, whole, late, born, w);
    ArrivalsTyped(z1, late, born, w);
    forall v: nat | v != w ensures Agree(z, ArrivedAll(z1, late), v) {
      RunElsewhere(cfg, w, born, z, replies + [reply], v);
      ArrivalsElsewhere(z1, late, born, w, v);
      AgreeTrans(z, z1, ArrivedAll(z1, late), v);
    }
  }

  /** The other wallets' parts, when both stores change in wallet w's part only. */
  lemma OthersFollow(cfg: Config, born: Table, z: Store, z': Store, s: Store, s': Store, pcs: seq<Pc>, p: Plan, w: nat)
    requires AllBut(cfg, born, z, s, pcs, p, w)
    requires Typed(z.rows, born) && Typed(z'.rows, born) && AgreeBut(z, z', w) && AgreeBut(s, s', w)
    ensures AllBut(cfg, born, z', s', pcs, p, w)
  {
    forall v | 0 <= v < |pcs| && v != w ensures Simulates(cfg, born, z', s', v, pcs[v], p.current[v], p.late[v]) {
      assert Agree(z, z', v) && Agree(s, s', v);
      SimulatesElsewhere(cfg, born, z, z', s, s', v, pcs[v], p.current[v], p.late[v]);
    }
  }

  lemma Together(cfg: Config, born: Table, z: Store, s: Store, pcs: seq<Pc>, p: Plan, w: nat, pcs': seq<Pc>, p': Plan)
    requires AllBut(cfg, born, z, s, pcs, p, w) && w < |pcs|
    requires |p'.current| == |p'.late| == |pcs'| == |pcs|
    requires Simulates(cfg, born, z, s, w, pcs'[w], p'.current[w], p'.late[w])
    requires forall v :: 0 <= v < |pcs| && v != w ==>
      pcs'[v] == pcs[v] && p'.current[v] == p.current[v] && p'.late[v] == p.late[v]
    ensures AllBut(cfg, born, z, s, pcs', p', |pcs'|)
  {
  }

  /** The watcher's own part after its call. */
  lemma OwnFollows(cfg: Config, born: Table, s: Store, p: Plan, w: nat, pc: Pc, reply: Reply)
    requires w < |p.current| == |p.late| && Serial(cfg, p.atoms)
    requires Typed(Execute(cfg, p.atoms).rows, born) && Typed(s.rows, born)
    requires Simulates(cfg, born, Execute(cfg, p.atoms), s, w, pc, p.current[w], p.late[w])
    requires Answered(s, w, Ask(cfg, w, pc), reply)
    ensures
      var p' := ExtendWatch(p, w, reply, Next(cfg, w, pc, reply).Idle?);
      var z, z' := Execute(cfg, p.atoms), Execute(cfg, p'.atoms);
      && Serial(cfg, p'.atoms) && Typed(z'.rows, born) && AgreeBut(z, z', w)
      && Simulates(cfg, born, z', Effect(s, w, Ask(cfg, w, pc), reply), w, Next(cfg, w, pc, reply), p'.current[w], p'.late[w])
  {
    var z := Execute(cfg, p.atoms);
    if Next(cfg, w, pc, reply).Idle? {
      Commit(cfg, born, p.atoms, s, w, pc, p.current[w], p.late[w], reply);
    } else {
      SimulatesGoesOn(cfg, born, z, s, w, pc, p.current[w], p.late[w], reply);
      SameBut(z, w);
    }
  }

  lemma FollowsWatch(cfg: Config, born: Table, s: Store, pcs: seq<Pc>, p: Plan, w: nat, reply: Reply)
    requires Follows(cfg, born, s, pcs, p) && w < |pcs| && Typed(s.rows, born) && PcTyped(born, w, pcs[w])
    requires Answered(s, w, Ask(cfg, w, pcs[w]), reply)
    ensures
      var pc' := Next(cfg, w, pcs[w], reply);
      Follows(cfg, born, Effect(s, w, Ask(cfg, w, pcs[w]), reply), pcs[w := pc'], ExtendWatch(p, w, reply, pc'.Idle?))
  {
    var pc, pc', z := pcs[w], Next(cfg, w, pcs[w], reply), Execute(cfg, p.atoms);
    var s', p' := Effect(s, w, Ask(cfg, w, pc), reply), ExtendWatch(p, w, reply, pc'.Idle?);
    OwnFollows(cfg, born, s, p, w, pc, reply);
    forall v: nat | v != w ensures Agree(s, s', v) {
      StepElsewhere(cfg, w, born, s, pc, reply, v);
    }
    var z' := Execute(cfg, p'.atoms);
    OthersFollow(cfg, born, z, z', s, s', pcs, p, w);
    Together(cfg, born, z', s', pcs, p, w, pcs[w := pc'], p');
  }

  lemma SameAgrees(a: Store, w: nat)
    ensures Agree(a, a, w)
  {
  }

  /** A row arrives for a wallet that may still choose it: it goes before the Tick under way, if any. */
  lemma SimulatesEarly(cfg: Config, born: Table, z: Store, s: Store, pc: Pc, replies: seq<Reply>, row: Row)
    requires Simulates(cfg, born, z, s, row.wallet, pc, replies, [])
    requires Typed(z.rows, born) && row.Pending() && row.id !in born && !PastPick(pc)
    ensures Simulates(cfg, born[row.id := row], Arrived(z, row), Arrived(s, row), row.wallet, pc, replies, [])
  {
    RunArrival(cfg, row.wallet, born, z, replies, row);
    ArrivalAgrees(s, Run(cfg, row.wallet, z, replies).store, row, row.wallet);
  }

  lemma WaitingMore(late: seq<Row>, z: Store, born: Table, row: Row)
    requires Waiting(late, z, born, row.wallet) && Typed(z.rows, born) && row.Pending() && row.id !in born
    ensures Waiting(late + [row], z, born[row.id := row], row.wallet)
  {
    assert row.id !in z.rows;
  }

  /** A row arrives for a wallet that has chosen another: it waits for the Tick to end. */
  lemma SimulatesLate(cfg: Config, born: Table, z: Store, s: Store, pc: Pc, replies: seq<Reply>, late: seq<Row>, row: Row)
    requires Simulates(cfg, born, z, s, row.wallet, pc, replies, late)
    requires Typed(z.rows, born) && row.Pending() && row.id !in born && PastPick(pc) && pc.row.id in born
    ensures Simulates(cfg, born[row.id := row], z, Arrived(s, row), row.wallet, pc, replies, late + [row])
  {
    var rows := late + [row];
    assert rows[..|late|] == late;
    ArrivalAgrees(s, ArrivedAll(Run(cfg, row.wallet, z, replies).store, late), row, row.wallet);
    WaitingMore(late, z, born, row);
  }

  lemma SimulatesMore(cfg: Config, born: Table, z: Store, s: Store, v: nat, pc: Pc, replies: seq<Reply>, late: seq<Row>, row: Row)
    requires Simulates(cfg, born, z, s, v, pc, replies, late) && row.id !in born
    ensures Simulates(cfg, born[row.id := row], z, s, v, pc, replies, late)
  {
  }

  lemma OthersMore(cfg: Config, born: Table, z: Store, s: Store, pcs: seq<Pc>, p: Plan, w: nat, row: Row)
    requires AllBut(cfg, born, z, s, pcs, p, w) && row.id !in born
    ensures AllBut(cfg, born[row.id := row], z, s, pcs, p, w)
  {
    forall v | 0 <= v < |pcs| && v != w
      ensures Simulates(cfg, born[row.id := row], z, s, v, pcs[v], p.current[v], p.late[v])
    {
      SimulatesMore(cfg, born, z, s, v, pcs[v], p.current[v], p.late[v], row);
    }
  }

  lemma ExecuteInsert(cfg: Config, born: Table, p: Plan, row: Row, late: bool)
    requires row.wallet < |p.late| && Serial(cfg, p.atoms) && Typed(Execute(cfg, p.atoms).rows, born)
    requires row.Pending() && row.id !in born
    ensures
      var z, atoms' := Execute(cfg, p.atoms), ExtendInsert(p, row, late).atoms;
      && Serial(cfg, atoms') && Execute(cfg, atoms') == (if late then z else Arrived(z, row))
      && Typed(Execute(cfg, atoms').rows, born[row.id := row])
  {
    if !late {
      ExecuteArrival(cfg, p.atoms, row);
    }
  }

  lemma OwnInsert(cfg: Config, born: Table, s: Store, p: Plan, pc: Pc, row: Row)
    requires row.wallet < |p.current| == |p.late| && Typed(Execute(cfg, p.atoms).rows, born)
    requires Simulates(cfg, born, Execute(cfg, p.atoms), s, row.wallet, pc, p.current[row.wallet], p.late[row.wallet])
    requires row.Pending() && row.id !in born && PcTyped(born, row.wallet, pc)
    ensures
      var p', born' := ExtendInsert(p, row, PastPick(pc)), born[row.id := row];
      var z' := if PastPick(pc) then Execute(cfg, p.atoms) else Arrived(Execute(cfg, p.atoms), row);
      && Simulates(cfg, born', z', Arrived(s, row), row.wallet, pc, p'.current[row.wallet], p'.late[row.wallet])
  {
    var w, z := row.wallet, Execute(cfg, p.atoms);
    if PastPick(pc) {
      SimulatesLate(cfg, born, z, s, pc, p.current[w], p.late[w], row);
    } else {
      SimulatesEarly(cfg, born, z, s, pc, p.current[w], row);
    }
  }

  lemma ArrivalBut(store: Store, row: Row, born: Table)
    requires Typed(store.rows, born) && row.id !in born
    ensures AgreeBut(store, Arrived(store, row), row.wallet)
  {
    forall v: nat | v != row.wallet ensures Agree(store, Arrived(store, row), v) {
      ArrivalElsewhere(store, row, born[row.id := row], v);
    }
  }

  lemma SameBut(store: Store, w: nat)
    ensures AgreeBut(store, store, w)
  {
    forall v: nat | v != w ensures Agree(store, store, v) {
      SameAgrees(store, v);
    }
  }

  lemma FollowsInsert(cfg: Config, born: Table, s: Store, pcs: seq<Pc>, p: Plan, row: Row)
    requires Follows(cfg, born, s, pcs, p) && row.wallet < |pcs| && Typed(s.rows, born)
    requires row.Pending() && row.id !in born && PcTyped(born, row.wallet, pcs[row.wallet])
    ensures Follows(cfg, born[row.id := row], Arrived(s, row), pcs, ExtendInsert(p, row, PastPick(pcs[row.wallet])))
  {
    var w, z, born' := row.wallet, Execute(cfg, p.atoms), born[row.id := row];
    var p' := ExtendInsert(p, row, PastPick(pcs[w]));
    var z' := Execute(cfg, p'.atoms);
    ExecuteInsert(cfg, born, p, row, PastPick(pcs[w]));
    OwnInsert(cfg, born, s, p, pcs[w], row);
    OthersMore(cfg, born, z, s, pcs, p, w, row);
    ArrivalBut(s, row, born);
    if PastPick(pcs[w]) { SameBut(z, w); } else { ArrivalBut(z, row, born); }
    OthersFollow(cfg, born', z, z', s, Arrived(s, row), pcs, p, w);
    Together(cfg, born', z', Arrived(s, row), pcs, p, w, pcs, p');
  }

  ghost predicate NoCleaner(run: seq<Action>) {
    forall i :: 0 <= i < |run| ==> !run[i].Clean?
  }

  /** A row that is new to the table was never inserted before, when nothing but inserts and watchers touch it. */
  lemma NewIsUnborn(cfg: Config, s: World, row: Row)
    requires Inv(cfg, s) && Enabled(cfg, s, Insert(row)) && row.id !in s.store.rows
    ensures row.id !in s.born
  {
  }

  lemma FollowsStep(cfg: Config, s: World, p: Plan, a: Action)
    requires Inv(cfg, s) && Follows(cfg, s.born, s.store, s.pcs, p) && Enabled(cfg, s, a) && !a.Clean?
    ensures
      var s' := Apply(cfg, s, a);
      Follows(cfg, s'.born, s'.store, s'.pcs, Extend(cfg, s, p, a))
  {
    if a.Watch? {
      WorldTyped(cfg, s, a.w);
      AnsweredIfEnabled(s.store, s.chain, a.w, Ask(cfg, a.w, s.pcs[a.w]), a.reply);
      FollowsWatch(cfg, s.born, s.store, s.pcs, p, a.w, a.reply);
    } else if a.Insert? && a.row.id !in s.store.rows {
      WorldTyped(cfg, s, a.row.wallet);
      NewIsUnborn(cfg, s, a.row);
      FollowsInsert(cfg, s.born, s.store, s.pcs, p, a.row);
    }
  }

  lemma {:induction false} PlanFollows(cfg: Config, t: Terms, run: seq<Action>)
    requires Legal(cfg, t, run) && NoCleaner(run)
    ensures
      var s := After(cfg, run);
      Follows(cfg, s.born, s.store, s.pcs, PlanOf(cfg, run))
  {
    if run != [] {
      PlanFollows(cfg, t, run[..|run|-1]);
      Reachable(cfg, t, run[..|run|-1]);
      FollowsStep(cfg, After(cfg, run[..|run|-1]), PlanOf(cfg, run[..|run|-1]), run[|run|-1]);
    }
  }

  // ---------------------------------------------------------------- the same Ticks

  /** The replies wallet w's watcher got in the run, in order. */
  function Replies(run: seq<Action>, w: nat): seq<Reply> {
    if run == [] then []
    else
      var before, a := Replies(run[..|run|-1], w), run[|run|-1];
      if a.Watch? && a.w == w then before + [a.reply] else before
  }

  /** The replies the wallet's Ticks of the serial order got, one Tick after the other. */
  function Heard(atoms: seq<Atom>, w: nat): seq<Reply> {
    if atoms == [] then []
    else
      var before, atom := Heard(atoms[..|atoms|-1], w), atoms[|atoms|-1];
      if atom.Whole? && atom.w == w then before + atom.replies else before
  }

  lemma {:induction false} HeardArrivals(atoms: seq<Atom>, rows: seq<Row>, w: nat)
    ensures Heard(atoms + Arrivals(rows), w) == Heard(atoms, w)
  {
    var all := atoms + Arrivals(rows);
    if rows == [] {
      assert all == atoms;
    } else {
      HeardArrivals(atoms, rows[..|rows|-1], w);
      assert all[..|all|-1] == atoms + Arrivals(rows[..|rows|-1]);
    }
  }

  lemma HeardWatch(p: Plan, v: nat, reply: Reply, ends: bool, w: nat)
    requires |p.current| == |p.late| && v < |p.current| && w < |p.current|
    ensures
      var p' := ExtendWatch(p, v, reply, ends);
      Heard(p'.atoms, w) + p'.current[w] == Heard(p.atoms, w) + p.current[w] + if v == w then [reply] else []
  {
    if ends {
      var whole := p.atoms + [Whole(v, p.current[v] + [reply])];
      assert whole[..|p.atoms|] == p.atoms;
      HeardArrivals(whole, p.late[v], w);
    }
  }

  lemma HeardInsert(p: Plan, row: Row, late: bool, w: nat)
    requires row.wallet < |p.late|
    ensures Heard(ExtendInsert(p, row, late).atoms, w) == Heard(p.atoms, w)
  {
    assert (p.atoms + [Arrival(row)])[..|p.atoms|] == p.atoms;
  }

  /** The serial order's Ticks are the run's: call by call they got the same replies. */
  lemma {:induction false} SameTicks(cfg: Config, run: seq<Action>, w: nat)
    requires forall a :: a in run ==> a.Watch? ==> a.w < |cfg.senders|
    requires w < |cfg.senders|
    ensures Heard(PlanOf(cfg, run).atoms, w) + PlanOf(cfg, run).current[w] == Replies(run, w)
  {
    if run != [] {
      var before, a := run[..|run|-1], run[|run|-1];
      SameTicks(cfg, before, w);
      PcsLength(cfg, before);
      var s, p := After(cfg, before), PlanOf(cfg, before);
      if a.Watch? {
        HeardWatch(p, a.w, a.reply, Next(cfg, a.w, s.pcs[a.w], a.reply).Idle?, w);
      } else if a.Insert? && a.row.id !in s.store.rows && a.row.wallet < |s.pcs| {
        HeardInsert(p, a.row, PastPick(s.pcs[a.row.wallet]), w);
      }
    }
  }

  lemma {:induction false} WatchesExist(cfg: Config, t: Terms, run: seq<Action>)
    requires Legal(cfg, t, run)
    ensures forall a :: a in run ==> a.Watch? ==> a.w < |cfg.senders|
  {
    if run != [] {
      WatchesExist(cfg, t, run[..|run|-1]);
      PcsLength(cfg, run[..|run|-1]);
    }
  }

  // ---------------------------------------------------------------- the same arrivals

  /** The rows inserted for wallet w in the run, in order; duplicates are not inserted. */
  function Inserted(cfg: Config, run: seq<Action>, w: nat): seq<Row> {
    if run == [] then []
    else
      var before, a := run[..|run|-1], run[|run|-1];
      if a.Insert? && a.row.wallet == w && a.row.id !in After(cfg, before).store.rows
      then Inserted(cfg, before, w) + [a.row] else Inserted(cfg, before, w)
  }

  /** The rows that arrive for the wallet in the serial order. */
  function Received(atoms: seq<Atom>, w: nat): seq<Row> {
    if atoms == [] then []
    else
      var before, atom := Received(atoms[..|atoms|-1], w), atoms[|atoms|-1];
      if atom.Arrival? && atom.row.wallet == w then before + [atom.row] else before
  }

  function OfWallet(rows: seq<Row>, w: nat): seq<Row> {
    if rows == [] then []
    else
      var before, last := OfWallet(rows[..|rows|-1], w), rows[|rows|-1];
      if last.wallet == w then before + [last] else before
  }

  lemma {:induction false} OfOneWallet(rows: seq<Row>, w: nat, v: nat)
    requires forall i :: 0 <= i < |rows| ==> rows[i].wallet == v
    ensures OfWallet(rows, w) == if v == w then rows else []
  {
    if rows != [] {
      OfOneWallet(rows[..|rows|-1], w, v);
    }
  }

  lemma ReceivedAppend(atoms: seq<Atom>, row: Row, w: nat)
    ensures Received(atoms + [Arrival(row)], w) == Received(atoms, w) + if row.wallet == w then [row] else []
  {
    assert (atoms + [Arrival(row)])[..|atoms|] == atoms;
  }

  lemma {:induction false} ReceivedArrivals(atoms: seq<Atom>, rows: seq<Row>, w: nat)
    ensures Received(atoms + Arrivals(rows), w) == Received(atoms, w) + OfWallet(rows, w)
  {
    if rows == [] {
      assert atoms + Arrivals(rows) == atoms;
    } else {
      var before, last := rows[..|rows|-1], rows[|rows|-1];
      ReceivedArrivals(atoms, before, w);
      ReceivedAppend(atoms + Arrivals(before), last, w);
      assert atoms + Arrivals(rows) == atoms + Arrivals(before) + [Arrival(last)];
    }
  }

  /** Rows wait under their own wallet. */
  ghost predicate LateTyped(p: Plan) {
    forall w, i :: 0 <= w < |p.late| && 0 <= i < |p.late[w]| ==> p.late[w][i].wallet == w
  }

  lemma ReceivedWatch(p: Plan, v: nat, reply: Reply, ends: bool, w: nat)
    requires |p.current| == |p.late| && v < |p.current| && w < |p.late| && LateTyped(p)
    ensures
      var p' := ExtendWatch(p, v, reply, ends);
      LateTyped(p') && Received(p'.atoms, w) + p'.late[w] == Received(p.atoms, w) + p.late[w]
  {
    if ends {
      var whole := p.atoms + [Whole(v, p.current[v] + [reply])];
      assert whole[..|p.atoms|] == p.atoms;
      ReceivedArrivals(whole, p.late[v], w);
      OfOneWallet(p.late[v], w, v);
    }
  }

  lemma ReceivedInsert(p: Plan, row: Row, late: bool, w: nat)
    requires row.wallet < |p.late| && w < |p.late| && LateTyped(p)
    requires !late ==> p.late[row.wallet] == []
    ensures
      var p' := ExtendInsert(p, row, late);
      && LateTyped(p')
      && Received(p'.atoms, w) + p'.late[w]
         == Received(p.atoms, w) + p.late[w] + if row.wallet == w then [row] else []
  {
    if !late {
      ReceivedAppend(p.atoms, row, w);
    }
  }

  /** The serial order's arrivals are the run's: for each wallet the same rows in the same order. */
  lemma {:induction false} SameArrivals(cfg: Config, t: Terms, run: seq<Action>, w: nat)
    requires Legal(cfg, t, run) && NoCleaner(run) && w < |cfg.senders|
    ensures LateTyped(PlanOf(cfg, run))
    ensures Received(PlanOf(cfg, run).atoms, w) + PlanOf(cfg, run).late[w] == Inserted(cfg, run, w)
  {
    if run != [] {
      var before, a := run[..|run|-1], run[|run|-1];
      SameArrivals(cfg, t, before, w);
      PcsLength(cfg, before);
      var s, p := After(cfg, before), PlanOf(cfg, before);
      if a.Watch? {
        ReceivedWatch(p, a.w, a.reply, Next(cfg, a.w, s.pcs[a.w], a.reply).Idle?, w);
      } else if a.Insert? && a.row.id !in s.store.rows {
        PlanFollows(cfg, t, before);
        NotLate(cfg, s.born, s.store, s.pcs, p, a.row.wallet);
        ReceivedInsert(p, a.row, PastPick(s.pcs[a.row.wallet]), w);
      }
    }
  }

  lemma NotLate(cfg: Config, born: Table, s: Store, pcs: seq<Pc>, p: Plan, w: nat)
    requires Follows(cfg, born, s, pcs, p) && w < |pcs|
    ensures !PastPick(pcs[w]) ==> p.late[w] == []
  {
    assert Simulates(cfg, born, Execute(cfg, p.atoms), s, w, pcs[w], p.current[w], p.late[w]);
  }

  lemma AgreeEverywhere(cfg: Config, born: Table, s: Store, pcs: seq<Pc>, p: Plan)
    requires Follows(cfg, born, s, pcs, p)
    requires forall w :: 0 <= w < |pcs| ==> pcs[w].Idle?
    ensures forall w :: 0 <= w < |pcs| ==> Agree(s, Execute(cfg, p.atoms), w) && p.current[w] == [] && p.late[w] == []
  {
    forall w | 0 <= w < |pcs| ensures Agree(s, Execute(cfg, p.atoms), w) && p.current[w] == [] && p.late[w] == [] {
      assert Simulates(cfg, born, Execute(cfg, p.atoms), s, w, pcs[w], p.current[w], p.late[w]);
    }
  }

  lemma SameTable(a: Table, b: Table, born: Table, n: nat)
    requires Typed(a, born) && Typed(b, born) && forall id: Id :: id in born ==> born[id].wallet < n
    requires forall w: nat :: w < n ==> SameRows(a, b, w)
    ensures a == b
  {
    forall id: Id ensures id in a <==> id in b {
      if id in born {
        var w := born[id].wallet;
        assert SameRows(a, b, w) && (InWallet(a, id, w) <==> InWallet(b, id, w));
      }
    }
    forall id: Id | id in a ensures a[id] == b[id] {
      assert SameRows(a, b, born[id].wallet) && InWallet(a, id, born[id].wallet);
    }
  }

  /**
    Every run without the cleaner that ends between Ticks has a serial order of whole Ticks and
    arrivals, in which every Tick runs alone, that leaves the same table and, wallet by wallet, the
    same messages and the same sends in the same order. Its Ticks and arrivals are those of the run: each wallet's
    calls get the replies they got there, and its rows arrive in the order they were inserted.
  */
  lemma Serialisable(cfg: Config, t: Terms, run: seq<Action>)
    requires Legal(cfg, t, run) && NoCleaner(run)
    requires forall w :: 0 <= w < |After(cfg, run).pcs| ==> After(cfg, run).pcs[w].Idle?
    ensures
      var atoms := PlanOf(cfg, run).atoms;
      var z, store := Execute(cfg, atoms), After(cfg, run).store;
      && Serial(cfg, atoms)
      && z.rows == store.rows
      && forall w :: 0 <= w < |cfg.senders| ==>
           && PostsBy(z.posts, w) == PostsBy(store.posts, w) && SendsBy(z.sends, w) == SendsBy(store.sends, w)
           && Heard(atoms, w) == Replies(run, w) && Received(atoms, w) == Inserted(cfg, run, w)
  {
    var s, p := After(cfg, run), PlanOf(cfg, run);
    var z := Execute(cfg, p.atoms);
    PlanFollows(cfg, t, run);
    WatchesExist(cfg, t, run);
    Reachable(cfg, t, run);
    AgreeEverywhere(cfg, s.born, s.store, s.pcs, p);
    forall w: nat | w < |s.pcs| ensures SameRows(z.rows, s.store.rows, w) {
      assert Agree(s.store, z, w);
      AgreeSym(s.store, z, w);
    }
    SameTable(z.rows, s.store.rows, s.born, |s.pcs|);
    forall w | 0 <= w < |cfg.senders|
      ensures PostsBy(z.posts, w) == PostsBy(s.store.posts, w) && SendsBy(z.sends, w) == SendsBy(s.store.sends, w)
      ensures Heard(p.atoms, w) == Replies(run, w) && Received(p.atoms, w) == Inserted(cfg, run, w)
    {
      assert Agree(s.store, z, w);
      SameTicks(cfg, run, w);
      SameArrivals(cfg, t, run, w);
    }
  }
}
