/**
  The transactions made for one request since its submission was stored: the first, then one per boost,
  each with the head and the suggestion its Tick heard. They share sender, nonce and payload, each price is
  a boost of the one before, and boosts are boostAfterBlocks blocks apart, whatever fails. A boost is sent
  exactly when its Update reported no error, and made exactly when boosting is on and the last is old enough.
*/
module Boosts {
  import opened Types
  import opened Watcher
  import opened System
  import opened Rows
  import opened Prices
  import opened Notes
  import opened Sends

  /**
    A transaction as it was signed for a request, the head and the suggested price its Tick heard, whether the
    Update that stored it reported success, and whether it was sent.
  */
  datatype Version = Version(hash: TxHash, head: nat, suggested: nat, reported: bool, sent: bool)

  predicate Complete(n: Notes) {
    n.read.Some? && n.signed.Some? && n.head.Some? && n.suggested.Some?
  }

  function VersionOf(n: Notes, reported: bool, sent: bool): Version
    requires Complete(n)
  {
    Version(n.signed.value, n.head.value, n.suggested.value, reported, sent)
  }

  /** A write that takes effect after a signature makes a version; sending a boost marks the last one as sent. */
  function LogStep(n: Notes, request: Request, reply: Reply, id: Id, log: seq<Version>): seq<Version> {
    if !Complete(n) || n.read.value.id != id then log
    else if request.Save? && reply.Wrote() then
      if n.active then log + [VersionOf(n, reply.Done?, false)] else [VersionOf(n, reply.Done?, true)]
    else if request.Submit? && request.boost && reply.Sent? && log != [] then
      log[|log|-1 := log[|log|-1].(sent := true)]
    else log
  }

  /** The versions of a request over a run. */
  function Log(cfg: Config, run: seq<Action>, id: Id): seq<Version> {
    if run == [] then []
    else
      var before, a := run[..|run|-1], run[|run|-1];
      var log := Log(cfg, before, id);
      if a.Watch? && a.w < |After(cfg, before).pcs|
      then LogStep(NotesOf(cfg, before, a.w), Now(cfg, before, a.w), a.reply, id, log)
      else log
  }

  function HashesOf(log: seq<Version>): seq<TxHash> {
    seq(|log|, i requires 0 <= i < |log| => log[i].hash)
  }

  function PricesOf(log: seq<Version>): seq<nat> {
    seq(|log|, i requires 0 <= i < |log| => log[i].hash.tx.gasPrice)
  }

  function SuggestionsOf(log: seq<Version>): seq<nat> {
    seq(|log|, i requires 0 <= i < |log| => log[i].suggested)
  }

  function SentOf(log: seq<Version>): seq<TxHash> {
    if log == [] then []
    else
      var before, last := SentOf(log[..|log|-1]), log[|log|-1];
      if last.sent then before + [last.hash] else before
  }

  predicate SamePayload(a: Tx, b: Tx) {
    a == b.(gasPrice := a.gasPrice, gas := a.gas)
  }

  /** Alike but for gas price and gas, priced and paced as boosts of one another. */
  ghost predicate Chain(cfg: Config, cap: Option<nat>, log: seq<Version>) {
    && (forall i :: 0 <= i < |log| ==>
          SamePayload(log[i].hash.tx, log[0].hash.tx) && (cap.Some? ==> log[i].suggested <= cap.value))
    && (forall i :: 0 < i < |log| ==>
          && Offers(log[i].hash.tx.gasPrice, log[i-1].hash.tx.gasPrice, log[i].suggested)
          && log[i].head - log[i-1].head >= cfg.boostAfterBlocks)
    && (log != [] ==> log[0].hash.tx.gasPrice == 2 * log[0].suggested)
  }

  /** The row shows its first and its last version. */
  ghost predicate Backed(row: Row, log: seq<Version>) {
    && |log| > 0 && row.hash == Some(log[|log|-1].hash)
    && row.submittedNumber == Some(log[0].head)
    && SentAt(row) == log[|log|-1].head && (|log| > 1 ==> row.boostedNumber.Some?)
  }

  /** The first version was sent, a boost exactly if its Update reported success. */
  ghost predicate Told(log: seq<Version>) {
    && (log != [] ==> log[0].sent)
    && forall i :: 0 < i < |log| ==> log[i].sent == log[i].reported
  }

  /** The same but for the last, which is to be sent next. */
  ghost predicate ToSend(log: seq<Version>) {
    && |log| > 1 && !log[|log|-1].sent && log[|log|-1].reported
    && Told(log[..|log|-1])
  }

  ghost predicate LogAt(cfg: Config, cap: Option<nat>, row: Row, point: Point, n: Notes, log: seq<Version>, kept: seq<TxHash>) {
    && (if point.BoostSend? then ToSend(log) else Told(log))
    && (cap.Some? && n.suggested.Some? ==> n.suggested.value <= cap.value)
    && match point
       case BoostStore(_) => log != [] && Complete(n) && Chain(cfg, cap, log + [VersionOf(n, false, false)])
                             && row.submittedNumber == Some(log[0].head)
       case SubmitStore => log == [] && Complete(n) && kept == [n.signed.value]
       case _ => if row.Submitted() then Backed(row, log) else log == []
  }

  /** What is known of one request; `pc` is where the watcher of its wallet is, `n` what it has heard. */
  ghost predicate LogInv(cfg: Config, cap: Option<nat>, rows: Table, pc: Pc, n: Notes, id: Id, log: seq<Version>,
                         kept: seq<TxHash>) {
    && Chain(cfg, cap, log)
    && (if log == [] then |kept| <= 1 else kept == SentOf(log))
    && (if Holds(pc, id) then LogAt(cfg, cap, pc.row, pc.point, n, log, kept) else Told(log))
    && (id in rows ==> rows[id].id == id && if rows[id].Submitted() then Backed(rows[id], log) else log == [])
  }

  // ------------------------------------------------------------ lists

  lemma LogGrows(log: seq<Version>, version: Version)
    ensures SentOf(log + [version]) == SentOf(log) + if version.sent then [version.hash] else []
  {
    assert (log + [version])[..|log|] == log;
  }

  /** Whether it was reported or sent does not matter to how a version continues the chain. */
  lemma ChainAnyway(cfg: Config, cap: Option<nat>, log: seq<Version>, a: Version, b: Version)
    requires Chain(cfg, cap, log + [a]) && b == a.(reported := b.reported, sent := b.sent)
    ensures Chain(cfg, cap, log + [b])
  {
    forall i | 0 <= i < |log + [b]|
      ensures
        var v, w := (log + [b])[i], (log + [a])[i];
        v.hash == w.hash && v.head == w.head && v.suggested == w.suggested
    {
    }
  }

  lemma LogMarked(cfg: Config, cap: Option<nat>, log: seq<Version>)
    requires ToSend(log) && Chain(cfg, cap, log)
    ensures
      var log' := log[|log|-1 := log[|log|-1].(sent := true)];
      Chain(cfg, cap, log') && SentOf(log') == SentOf(log) + [log[|log|-1].hash] && Told(log')
  {
    var before, last := log[..|log|-1], log[|log|-1];
    var log' := log[|log|-1 := last.(sent := true)];
    assert log' == before + [last.(sent := true)] && log == before + [last];
    assert log'[..|log|-1] == before;
    ChainAnyway(cfg, cap, before, last, last.(sent := true));
    forall i | 0 < i < |log'| ensures log'[i].sent == log'[i].reported {
      assert i < |log| - 1 ==> log'[i] == before[i];
    }
    assert log'[0] == before[0];
  }

  lemma ChainAppend(cfg: Config, cap: Option<nat>, log: seq<Version>, version: Version)
    requires Chain(cfg, cap, log) && |log| > 0
    requires
      var last := log[|log|-1];
      && SamePayload(version.hash.tx, last.hash.tx) && (cap.Some? ==> version.suggested <= cap.value)
      && Offers(version.hash.tx.gasPrice, last.hash.tx.gasPrice, version.suggested)
      && version.head - last.head >= cfg.boostAfterBlocks
    ensures Chain(cfg, cap, log + [version])
  {
    var log' := log + [version];
    forall i | 0 <= i < |log'| ensures SamePayload(log'[i].hash.tx, log'[0].hash.tx) {
      assert SamePayload(log[|log|-1].hash.tx, log[0].hash.tx);
    }
  }

  // ------------------------------------------------------------ one call

  /** What one call does to the versions, to what is held and to what is stored. */
  ghost predicate Makes(cfg: Config, cap: Option<nat>, row: Row, point: Point, reply: Reply, pc': Pc, n': Notes,
                        log: seq<Version>, log': seq<Version>, kept': seq<TxHash>) {
    && Chain(cfg, cap, log')
    && (if log' == [] then |kept'| <= 1 else kept' == SentOf(log'))
    && (if pc'.At? then LogAt(cfg, cap, pc'.row, pc'.point, n', log', kept') else Told(log'))
    && (if reply.Wrote() && point.Unsaved() != {} then row.Submitted() && Backed(row, log')
        else if point.BoostSend? then |log'| == |log| > 0 && log' == log[|log|-1 := log[|log|-1].(sent := true)]
        else log' == log)
  }

  /** What may be assumed of a call. */
  ghost predicate Ready(cfg: Config, cap: Option<nat>, w: nat, row: Row, point: Point, n: Notes, reply: Reply,
                        log: seq<Version>, kept: seq<TxHash>) {
    && MemoryOk(cfg, row, point) && Consistent(cfg, row) && row.wallet == w && Knows(cfg, w, At(row, point), n)
    && Chain(cfg, cap, log) && LogAt(cfg, cap, row, point, n, log, kept)
    && (if log == [] then |kept| <= 1 else kept == SentOf(log))
    && (cap.Some? && reply.PriceIs? ==> reply.price <= cap.value)
    && (point.BoostSend? || point.SendSubmit? ==> reply.Sent?)
  }

  function LogAfter(cfg: Config, w: nat, row: Row, point: Point, n: Notes, reply: Reply, log: seq<Version>): seq<Version> {
    LogStep(n, AskAt(cfg, w, row, point), reply, row.id, log)
  }

  function NotesAfter(cfg: Config, w: nat, row: Row, point: Point, n: Notes, reply: Reply): Notes {
    Note(n, AskAt(cfg, w, row, point), reply)
  }

  /** Only these three calls make or send a version. */
  predicate MakesVersion(point: Point) {
    point.SubmitStore? || point.BoostStore? || point.BoostSend?
  }

  lemma NoVersion(cfg: Config, w: nat, row: Row, point: Point, n: Notes, reply: Reply, log: seq<Version>)
    requires Knows(cfg, w, At(row, point), n) && !MakesVersion(point)
    ensures LogAfter(cfg, w, row, point, n, reply, log) == log
  {
  }

  /** The signature of a boost makes the next version of the chain. */
  lemma BoostSigned(cfg: Config, cap: Option<nat>, w: nat, row: Row, point: Point, n: Notes, reply: Reply,
                    log: seq<Version>, kept: seq<TxHash>)
    requires Ready(cfg, cap, w, row, point, n, reply, log, kept) && point.BoostSign? && reply.Signature?
    ensures
      var pc' := NextAt(cfg, w, row, point, reply);
      pc'.At? ==>
        LogAt(cfg, cap, pc'.row, pc'.point, NotesAfter(cfg, w, row, point, n, reply), log,
              KeptAfter(cfg, w, row, point, reply, kept))
  {
    ChainAppend(cfg, cap, log, VersionOf(NotesAfter(cfg, w, row, point, n, reply), false, false));
  }

  lemma BoostPriced(cfg: Config, cap: Option<nat>, w: nat, row: Row, point: Point, n: Notes, reply: Reply,
                    log: seq<Version>, kept: seq<TxHash>)
    requires MemoryOk(cfg, row, point) && Consistent(cfg, row) && LogAt(cfg, cap, row, point, n, log, kept)
    requires (cap.Some? && reply.PriceIs? ==> reply.price <= cap.value) && (point.BoostPrice? || point.BoostGas?)
    ensures
      var pc' := NextAt(cfg, w, row, point, reply);
      pc'.At? ==>
        LogAt(cfg, cap, pc'.row, pc'.point, NotesAfter(cfg, w, row, point, n, reply), log,
              KeptAfter(cfg, w, row, point, reply, kept))
  {
  }

  /** From the pick to the send. */
  lemma FirstMade(cfg: Config, cap: Option<nat>, w: nat, row: Row, point: Point, n: Notes, reply: Reply,
                  log: seq<Version>, kept: seq<TxHash>)
    requires MemoryOk(cfg, row, point) && Consistent(cfg, row) && LogAt(cfg, cap, row, point, n, log, kept)
    requires Knows(cfg, w, At(row, point), n) && point.Sending()
    requires cap.Some? && reply.PriceIs? ==> reply.price <= cap.value
    ensures
      var pc' := NextAt(cfg, w, row, point, reply);
      pc'.At? ==>
        LogAt(cfg, cap, pc'.row, pc'.point, NotesAfter(cfg, w, row, point, n, reply), log,
              KeptAfter(cfg, w, row, point, reply, kept))
    ensures log == []
  {
  }

  /** The other calls. */
  lemma Unmade(cfg: Config, cap: Option<nat>, w: nat, row: Row, point: Point, n: Notes, reply: Reply,
               log: seq<Version>, kept: seq<TxHash>)
    requires MemoryOk(cfg, row, point) && Consistent(cfg, row) && LogAt(cfg, cap, row, point, n, log, kept)
    requires !point.Sending() && !MakesVersion(point) && !point.BoostPrice? && !point.BoostGas? && !point.BoostSign?
    ensures
      var pc' := NextAt(cfg, w, row, point, reply);
      pc'.At? ==>
        LogAt(cfg, cap, pc'.row, pc'.point, NotesAfter(cfg, w, row, point, n, reply), log,
              KeptAfter(cfg, w, row, point, reply, kept))
    ensures reply.Wrote() && point.Unsaved() != {} ==> row.Submitted() && Backed(row, log)
  {
  }

  /** The calls that make no version. */
  lemma MakesNone(cfg: Config, cap: Option<nat>, w: nat, row: Row, point: Point, n: Notes, reply: Reply,
                  log: seq<Version>, kept: seq<TxHash>)
    requires Ready(cfg, cap, w, row, point, n, reply, log, kept) && !MakesVersion(point)
    ensures Makes(cfg, cap, row, point, reply, NextAt(cfg, w, row, point, reply), NotesAfter(cfg, w, row, point, n, reply),
                  log, LogAfter(cfg, w, row, point, n, reply, log), KeptAfter(cfg, w, row, point, reply, kept))
  {
    NoVersion(cfg, w, row, point, n, reply, log);
    if point.Sending() {
      FirstMade(cfg, cap, w, row, point, n, reply, log, kept);
    } else if point.BoostPrice? || point.BoostGas? {
      BoostPriced(cfg, cap, w, row, point, n, reply, log, kept);
    } else if point.BoostSign? {
      if reply.Signature? {
        BoostSigned(cfg, cap, w, row, point, n, reply, log, kept);
      }
    } else {
      Unmade(cfg, cap, w, row, point, n, reply, log, kept);
    }
  }

  lemma BoostedRow(cfg: Config, w: nat, row: Row, hash: TxHash, n: Notes, log: seq<Version>, version: Version)
    requires Knows(cfg, w, At(row, BoostStore(hash)), n) && log != [] && row.submittedNumber == Some(log[0].head)
    requires version.hash == hash && Some(version.head) == n.head
    ensures row.Submitted() && Backed(row, log + [version])
  {
  }

  lemma BoostStored(cfg: Config, cap: Option<nat>, w: nat, row: Row, point: Point, n: Notes, reply: Reply,
                    log: seq<Version>, kept: seq<TxHash>)
    requires Ready(cfg, cap, w, row, point, n, reply, log, kept) && point.BoostStore? && reply.Wrote()
    ensures Makes(cfg, cap, row, point, reply, NextAt(cfg, w, row, point, reply), NotesAfter(cfg, w, row, point, n, reply),
                  log, LogAfter(cfg, w, row, point, n, reply, log), KeptAfter(cfg, w, row, point, reply, kept))
  {
    var version := VersionOf(n, reply.Done?, false);
    var log' := log + [version];
    assert LogAfter(cfg, w, row, point, n, reply, log) == log';
    LogGrows(log, version);
    ChainAnyway(cfg, cap, log, VersionOf(n, false, false), version);
    BoostedRow(cfg, w, row, point.hash, n, log, version);
    ToldNext(log, version);
  }

  lemma ToldNext(log: seq<Version>, version: Version)
    requires Told(log) && log != [] && !version.sent
    ensures if version.reported then ToSend(log + [version]) else Told(log + [version])
  {
    assert (log + [version])[..|log|] == log;
  }

  lemma BoostSent(cfg: Config, cap: Option<nat>, w: nat, row: Row, point: Point, n: Notes, reply: Reply,
                  log: seq<Version>, kept: seq<TxHash>)
    requires Ready(cfg, cap, w, row, point, n, reply, log, kept) && point.BoostSend?
    ensures Makes(cfg, cap, row, point, reply, NextAt(cfg, w, row, point, reply), NotesAfter(cfg, w, row, point, n, reply),
                  log, LogAfter(cfg, w, row, point, n, reply, log), KeptAfter(cfg, w, row, point, reply, kept))
  {
    LogMarked(cfg, cap, log);
  }

  lemma FirstRow(cfg: Config, cap: Option<nat>, w: nat, row: Row, n: Notes, version: Version)
    requires Knows(cfg, w, At(row, SubmitStore), n) && row.boostedNumber.None? && version.sent
    requires Complete(n) && version == VersionOf(n, version.reported, true)
    requires cap.Some? ==> version.suggested <= cap.value
    ensures row.Submitted() && Backed(row, [version]) && Chain(cfg, cap, [version]) && Told([version])
    ensures SentOf([version]) == [version.hash]
  {
    LogGrows([], version);
    assert [] + [version] == [version];
  }

  lemma FirstStored(cfg: Config, cap: Option<nat>, w: nat, row: Row, point: Point, n: Notes, reply: Reply,
                    log: seq<Version>, kept: seq<TxHash>)
    requires Ready(cfg, cap, w, row, point, n, reply, log, kept) && point.SubmitStore? && reply.Wrote()
    ensures Makes(cfg, cap, row, point, reply, NextAt(cfg, w, row, point, reply), NotesAfter(cfg, w, row, point, n, reply),
                  log, LogAfter(cfg, w, row, point, n, reply, log), KeptAfter(cfg, w, row, point, reply, kept))
  {
    var version := VersionOf(n, reply.Done?, true);
    assert LogAfter(cfg, w, row, point, n, reply, log) == [version];
    FirstRow(cfg, cap, w, row, n, version);
  }

  /** A write that did not take effect ends the Tick. */
  lemma Lost(cfg: Config, cap: Option<nat>, w: nat, row: Row, point: Point, n: Notes, reply: Reply,
             log: seq<Version>, kept: seq<TxHash>)
    requires Ready(cfg, cap, w, row, point, n, reply, log, kept) && (point.SubmitStore? || point.BoostStore?) && !reply.Wrote()
    ensures Makes(cfg, cap, row, point, reply, NextAt(cfg, w, row, point, reply), NotesAfter(cfg, w, row, point, n, reply),
                  log, LogAfter(cfg, w, row, point, n, reply, log), KeptAfter(cfg, w, row, point, reply, kept))
  {
  }

  lemma MakesCall(cfg: Config, cap: Option<nat>, w: nat, row: Row, point: Point, n: Notes, reply: Reply,
                  log: seq<Version>, kept: seq<TxHash>)
    requires Ready(cfg, cap, w, row, point, n, reply, log, kept)
    ensures Makes(cfg, cap, row, point, reply, NextAt(cfg, w, row, point, reply), NotesAfter(cfg, w, row, point, n, reply),
                  log, LogAfter(cfg, w, row, point, n, reply, log), KeptAfter(cfg, w, row, point, reply, kept))
  {
    if !MakesVersion(point) {
      MakesNone(cfg, cap, w, row, point, n, reply, log, kept);
    } else if point.BoostSend? {
      BoostSent(cfg, cap, w, row, point, n, reply, log, kept);
    } else if !reply.Wrote() {
      Lost(cfg, cap, w, row, point, n, reply, log, kept);
    } else if point.BoostStore? {
      BoostStored(cfg, cap, w, row, point, n, reply, log, kept);
    } else {
      FirstStored(cfg, cap, w, row, point, n, reply, log, kept);
    }
  }

  lemma BackedMarked(row: Row, log: seq<Version>)
    requires Backed(row, log)
    ensures Backed(row, log[|log|-1 := log[|log|-1].(sent := true)])
  {
  }

  lemma LogOwn(cfg: Config, cap: Option<nat>, rows: Table, rows': Table, row: Row, point: Point, reply: Reply, pc': Pc,
               n: Notes, n': Notes, log: seq<Version>, log': seq<Version>, kept: seq<TxHash>, kept': seq<TxHash>)
    requires LogInv(cfg, cap, rows, At(row, point), n, row.id, log, kept)
    requires Makes(cfg, cap, row, point, reply, pc', n', log, log', kept')
    requires RowStep(rows, rows', At(row, point), reply) && (pc'.At? ==> pc'.row.id == row.id)
    ensures LogInv(cfg, cap, rows', pc', n', row.id, log', kept')
  {
    if point.BoostSend? && row.id in rows && rows[row.id].Submitted() {
      BackedMarked(rows[row.id], log);
    }
  }

  /** A call of the wallet's watcher, for a request it does not hold; it may hold it next. */
  lemma LogOther(cfg: Config, cap: Option<nat>, rows: Table, rows': Table, pc: Pc, pc': Pc, n: Notes, n': Notes, reply: Reply,
                 w: nat, id: Id, log: seq<Version>, kept: seq<TxHash>)
    requires LogInv(cfg, cap, rows, pc, n, id, log, kept) && !Holds(pc, id) && Moves(rows, rows', w, pc, pc', reply)
    requires !pc.At? ==> n'.suggested.None?
    ensures LogInv(cfg, cap, rows', pc', n', id, log, kept)
  {
  }

  /** A call of another wallet's watcher. */
  lemma LogElse(cfg: Config, cap: Option<nat>, rows: Table, rows': Table, pc: Pc, reply: Reply, mine: Pc, n: Notes, id: Id,
                log: seq<Version>, kept: seq<TxHash>)
    requires LogInv(cfg, cap, rows, mine, n, id, log, kept) && !Holds(pc, id) && RowStep(rows, rows', pc, reply)
    ensures LogInv(cfg, cap, rows', mine, n, id, log, kept)
  {
  }

  // ------------------------------------------------------------ whole runs

  ghost predicate LogOk(cfg: Config, cap: Option<nat>, run: seq<Action>, s: World, id: Id) {
    if id in s.born then
      && s.born[id].wallet < |s.pcs|
      && LogInv(cfg, cap, s.store.rows, s.pcs[s.born[id].wallet], NotesOf(cfg, run, s.born[id].wallet), id,
                Log(cfg, run, id), Kept(s.store.sends, id))
    else Log(cfg, run, id) == [] && Kept(s.store.sends, id) == []
  }

  lemma LogUntouched(cfg: Config, w: nat, pc: Pc, n: Notes, reply: Reply, id: Id, log: seq<Version>)
    requires Knows(cfg, w, pc, n) && !Holds(pc, id)
    ensures LogStep(n, Ask(cfg, w, pc), reply, id, log) == log
  {
  }

  lemma QueryForgets(cfg: Config, w: nat, pc: Pc, n: Notes, reply: Reply)
    requires !pc.At?
    ensures Note(n, Ask(cfg, w, pc), reply).suggested.None?
  {
  }

  /** What a call of the wallet's own watcher does to the versions of the row in hand. */
  lemma LogHeld(cfg: Config, cap: Option<nat>, rows: Table, rows': Table, w: nat, row: Row, point: Point, n: Notes,
                reply: Reply, log: seq<Version>, kept: seq<TxHash>)
    requires Knows(cfg, w, At(row, point), n) && Local(cfg, w, At(row, point))
    requires LogInv(cfg, cap, rows, At(row, point), n, row.id, log, kept)
    requires Moves(rows, rows', w, At(row, point), NextAt(cfg, w, row, point, reply), reply)
    requires (cap.Some? && reply.PriceIs? ==> reply.price <= cap.value) && (AskAt(cfg, w, row, point).Submit? ==> reply.Sent?)
    ensures LogInv(cfg, cap, rows', NextAt(cfg, w, row, point, reply), NotesAfter(cfg, w, row, point, n, reply), row.id,
                   LogAfter(cfg, w, row, point, n, reply, log), KeptAfter(cfg, w, row, point, reply, kept))
  {
    MakesCall(cfg, cap, w, row, point, n, reply, log, kept);
    LogOwn(cfg, cap, rows, rows', row, point, reply, NextAt(cfg, w, row, point, reply), n,
           NotesAfter(cfg, w, row, point, n, reply), log, LogAfter(cfg, w, row, point, n, reply, log), kept,
           KeptAfter(cfg, w, row, point, reply, kept));
  }

  /** And to those of another. */
  lemma LogUnheld(cfg: Config, cap: Option<nat>, rows: Table, rows': Table, w: nat, pc: Pc, n: Notes, reply: Reply, id: Id,
                log: seq<Version>, kept: seq<TxHash>)
    requires Knows(cfg, w, pc, n) && !Holds(pc, id) && LogInv(cfg, cap, rows, pc, n, id, log, kept)
    requires Moves(rows, rows', w, pc, Next(cfg, w, pc, reply), reply)
    ensures LogInv(cfg, cap, rows', Next(cfg, w, pc, reply), Note(n, Ask(cfg, w, pc), reply), id,
                   LogStep(n, Ask(cfg, w, pc), reply, id, log), kept)
  {
    LogUntouched(cfg, w, pc, n, reply, id, log);
    if !pc.At? {
      QueryForgets(cfg, w, pc, n, reply);
    }
    LogOther(cfg, cap, rows, rows', pc, Next(cfg, w, pc, reply), n, Note(n, Ask(cfg, w, pc), reply), reply, w, id, log, kept);
  }

  /** A call of the wallet's own watcher. */
  lemma LogMine(cfg: Config, cap: Option<nat>, store: Store, w: nat, pc: Pc, n: Notes, reply: Reply, id: Id, log: seq<Version>)
    requires Knows(cfg, w, pc, n) && Local(cfg, w, pc)
    requires LogInv(cfg, cap, store.rows, pc, n, id, log, Kept(store.sends, id))
    requires Moves(store.rows, Effect(store, w, Ask(cfg, w, pc), reply).rows, w, pc, Next(cfg, w, pc, reply), reply)
    requires (cap.Some? && reply.PriceIs? ==> reply.price <= cap.value) && (Ask(cfg, w, pc).Submit? ==> reply.Sent?)
    ensures
      var store' := Effect(store, w, Ask(cfg, w, pc), reply);
      LogInv(cfg, cap, store'.rows, Next(cfg, w, pc, reply), Note(n, Ask(cfg, w, pc), reply), id,
             LogStep(n, Ask(cfg, w, pc), reply, id, log), Kept(store'.sends, id))
  {
    var kept, rows' := Kept(store.sends, id), Effect(store, w, Ask(cfg, w, pc), reply).rows;
    KeptWatch(cfg, store, w, pc, reply, id);
    if Holds(pc, id) {
      LogHeld(cfg, cap, store.rows, rows', w, pc.row, pc.point, n, reply, log, kept);
    } else {
      LogUnheld(cfg, cap, store.rows, rows', w, pc, n, reply, id, log, kept);
    }
  }

  lemma LogRun(cfg: Config, run: seq<Action>, w: nat, reply: Reply, id: Id)
    requires w < |After(cfg, run).pcs|
    ensures Log(cfg, run + [Watch(w, reply)], id)
            == LogStep(NotesOf(cfg, run, w), Now(cfg, run, w), reply, id, Log(cfg, run, id))
    ensures forall v: nat ::
      NotesOf(cfg, run + [Watch(w, reply)], v)
      == if v == w then Note(NotesOf(cfg, run, w), Now(cfg, run, w), reply) else NotesOf(cfg, run, v)
  {
    assert (run + [Watch(w, reply)])[..|run|] == run;
  }

  lemma WatchFacts(cfg: Config, t: Terms, run: seq<Action>, w: nat, reply: Reply)
    requires Legal(cfg, t, run) && w < |After(cfg, run).pcs|
    requires Enabled(cfg, After(cfg, run), Watch(w, reply)) && Honours(cfg, t, After(cfg, run), Watch(w, reply))
    ensures
      var s := After(cfg, run);
      && Inv(cfg, s) && Local(cfg, w, s.pcs[w]) && Knows(cfg, w, s.pcs[w], NotesOf(cfg, run, w))
      && (t.priceCap.Some? && reply.PriceIs? ==> reply.price <= t.priceCap.value)
      && (Now(cfg, run, w).Submit? ==> reply.Sent?)
  {
    var s := After(cfg, run);
    Reachable(cfg, t, run);
    KnowsHold(cfg, t, run, w);
    assert View(cfg, s.store.rows, s.born, w, s.pcs[w]);
    FitsCall(s.store, s.chain, w, Ask(cfg, w, s.pcs[w]), reply);
  }

  lemma LogWatchOwn(cfg: Config, t: Terms, run: seq<Action>, w: nat, reply: Reply, id: Id)
    requires Legal(cfg, t, run) && w < |After(cfg, run).pcs| && LogOk(cfg, t.priceCap, run, After(cfg, run), id)
    requires Enabled(cfg, After(cfg, run), Watch(w, reply)) && Honours(cfg, t, After(cfg, run), Watch(w, reply))
    requires id in After(cfg, run).born && After(cfg, run).born[id].wallet == w
    ensures LogOk(cfg, t.priceCap, run + [Watch(w, reply)], Apply(cfg, After(cfg, run), Watch(w, reply)), id)
  {
    var s := After(cfg, run);
    WatchFacts(cfg, t, run, w, reply);
    MovesWatch(cfg, s, w, reply);
    LogMine(cfg, t.priceCap, s.store, w, s.pcs[w], NotesOf(cfg, run, w), reply, id, Log(cfg, run, id));
    LogRun(cfg, run, w, reply, id);
    RetiredWatch(cfg, s, w, reply);
  }

  lemma LogWatchElse(cfg: Config, t: Terms, run: seq<Action>, w: nat, reply: Reply, id: Id)
    requires Legal(cfg, t, run) && w < |After(cfg, run).pcs| && LogOk(cfg, t.priceCap, run, After(cfg, run), id)
    requires Enabled(cfg, After(cfg, run), Watch(w, reply)) && Honours(cfg, t, After(cfg, run), Watch(w, reply))
    requires !(id in After(cfg, run).born && After(cfg, run).born[id].wallet == w)
    ensures LogOk(cfg, t.priceCap, run + [Watch(w, reply)], Apply(cfg, After(cfg, run), Watch(w, reply)), id)
  {
    var s := After(cfg, run);
    var pc := s.pcs[w];
    WatchFacts(cfg, t, run, w, reply);
    NotMine(cfg, s, w, id);
    RowsAfterWatch(cfg, s.store, s.born, w, pc, reply);
    KeptWatch(cfg, s.store, w, pc, reply, id);
    LogUntouched(cfg, w, pc, NotesOf(cfg, run, w), reply, id, Log(cfg, run, id));
    LogRun(cfg, run, w, reply, id);
    RetiredWatch(cfg, s, w, reply);
    if id in s.born {
      var v := s.born[id].wallet;
      LogElse(cfg, t.priceCap, s.store.rows, Effect(s.store, w, Ask(cfg, w, pc), reply).rows, pc, reply, s.pcs[v],
              NotesOf(cfg, run, v), id, Log(cfg, run, id), Kept(s.store.sends, id));
    }
  }

  lemma NotMine(cfg: Config, s: World, w: nat, id: Id)
    requires Inv(cfg, s) && w < |s.pcs| && !(id in s.born && s.born[id].wallet == w)
    ensures !Holds(s.pcs[w], id) && Held(s.store.rows, s.born, s.pcs[w])
  {
    assert View(cfg, s.store.rows, s.born, w, s.pcs[w]);
  }

  lemma LogArrives(cfg: Config, cap: Option<nat>, rows: Table, pc: Pc, n: Notes, row: Row)
    requires row.Pending() && !Holds(pc, row.id)
    ensures LogInv(cfg, cap, rows[row.id := row], pc, n, row.id, [], [])
  {
  }

  lemma LogStays(cfg: Config, run: seq<Action>, a: Action, id: Id)
    requires !a.Watch?
    ensures Log(cfg, run + [a], id) == Log(cfg, run, id)
    ensures forall v: nat :: NotesOf(cfg, run + [a], v) == NotesOf(cfg, run, v)
  {
    assert (run + [a])[..|run|] == run;
  }

  lemma LogElsewhere(cfg: Config, t: Terms, run: seq<Action>, a: Action, id: Id)
    requires Inv(cfg, After(cfg, run)) && LogOk(cfg, t.priceCap, run, After(cfg, run), id)
    requires Enabled(cfg, After(cfg, run), a) && !a.Watch?
    ensures LogOk(cfg, t.priceCap, run + [a], Apply(cfg, After(cfg, run), a), id)
  {
    var s, s' := After(cfg, run), Apply(cfg, After(cfg, run), a);
    LogStays(cfg, run, a, id);
    if id in s'.born && id !in s.born {
      var v := a.row.wallet;
      assert View(cfg, s.store.rows, s.born, v, s.pcs[v]);
      LogArrives(cfg, t.priceCap, s.store.rows, s.pcs[v], NotesOf(cfg, run, v), a.row);
    }
  }

  lemma {:induction false} LogHolds(cfg: Config, t: Terms, run: seq<Action>, id: Id)
    requires Legal(cfg, t, run)
    ensures LogOk(cfg, t.priceCap, run, After(cfg, run), id)
  {
    if run != [] {
      var before, a := run[..|run|-1], run[|run|-1];
      LogHolds(cfg, t, before, id);
      assert before + [a] == run;
      if !a.Watch? {
        Reachable(cfg, t, before);
        LogElsewhere(cfg, t, before, a, id);
      } else if id in After(cfg, before).born && After(cfg, before).born[id].wallet == a.w {
        LogWatchOwn(cfg, t, before, a.w, a.reply, id);
      } else {
        LogWatchElse(cfg, t, before, a.w, a.reply, id);
      }
    }
  }

  // ------------------------------------------------------------ what follows for a request

  lemma LogOf(cfg: Config, t: Terms, run: seq<Action>, id: Id)
    requires Legal(cfg, t, run)
    ensures Chain(cfg, t.priceCap, Log(cfg, run, id))
    ensures
      var log, kept := Log(cfg, run, id), Kept(After(cfg, run).store.sends, id);
      if log == [] then |kept| <= 1 else kept == SentOf(log) && log[0].sent
  {
    LogHolds(cfg, t, run, id);
    var s, log := After(cfg, run), Log(cfg, run, id);
    if id in s.born {
      var w := s.born[id].wallet;
      ToldOrToSend(cfg, t.priceCap, s.store.rows, s.pcs[w], NotesOf(cfg, run, w), id, log, Kept(s.store.sends, id));
      if log != [] {
        SentWhen(log, Boosting(s.pcs[w], id), 0);
      }
    }
  }

  lemma {:induction false} SentIn(log: seq<Version>)
    ensures forall h :: h in SentOf(log) ==> h in HashesOf(log)
    ensures log != [] && log[0].sent ==> SentOf(log) != [] && SentOf(log)[0] == log[0].hash
  {
    if log != [] {
      var before, last := log[..|log|-1], log[|log|-1];
      SentIn(before);
      assert HashesOf(log) == HashesOf(before) + [last.hash];
    }
  }

  /** Everything kept for a request is for one payload, from one sender under one nonce; so are all its versions. */
  lemma KeptAlike(cfg: Config, t: Terms, run: seq<Action>, id: Id)
    requires Legal(cfg, t, run)
    ensures
      var kept, hashes := Kept(After(cfg, run).store.sends, id), HashesOf(Log(cfg, run, id));
      forall h :: h in kept || h in hashes ==> kept != [] && SamePayload(h.tx, kept[0].tx)
  {
    LogOf(cfg, t, run, id);
    var kept, log := Kept(After(cfg, run).store.sends, id), Log(cfg, run, id);
    SentIn(log);
    forall h | h in kept || h in HashesOf(log) ensures kept != [] && SamePayload(h.tx, kept[0].tx) {
      if log != [] {
        assert h in HashesOf(log);
        var i :| 0 <= i < |log| && HashesOf(log)[i] == h;
        assert SamePayload(log[i].hash.tx, log[0].hash.tx);
      }
    }
  }

  /**
    Over every run, whatever fails, the versions of a request differ in gas price and gas only. Each boost offers
    at least a fifth more, rounded down, and at least twice the price suggested in its Tick, and is one of the two;
    that is 10% more exactly from 5 wei up or when the suggestion gives it. From a first price of 5 wei up,
    k boosts raise it at least 1.1^k-fold, each strictly; no price exceeds 1.2^k times twice the highest suggestion.
  */
  lemma PricesClimb(cfg: Config, t: Terms, run: seq<Action>, id: Id, k: nat)
    requires Legal(cfg, t, run) && k < |Log(cfg, run, id)|
    ensures
      var log := Log(cfg, run, id);
      var price, s := log[k].hash.tx.gasPrice, log[k].suggested;
      && log[k].hash.tx == log[0].hash.tx.(gasPrice := price, gas := log[k].hash.tx.gas)
      && (t.priceCap.Some? ==> s <= t.priceCap.value)
      && (k == 0 ==> price == 2 * s)
      && (k > 0 ==>
            var p := log[k-1].hash.tx.gasPrice;
            && price >= p + p / 5 && price >= 2 * s && (price == p + p / 5 || price == 2 * s)
            && (10 * price >= 11 * p <==> p == 0 || p >= 5 || 20 * s >= 11 * p)
            && (price > p <==> p >= 5 || 2 * s > p))
      && (log[0].hash.tx.gasPrice >= 5 ==>
            && Pow(10, k) * price >= Pow(11, k) * log[0].hash.tx.gasPrice
            && (k > 0 ==> price > log[k-1].hash.tx.gasPrice))
      && (t.priceCap.Some? ==> Pow(5, k) * price <= Pow(6, k) * (2 * t.priceCap.value))
  {
    LogOf(cfg, t, run, id);
    var log := Log(cfg, run, id);
    var prices, suggestions := PricesOf(log), SuggestionsOf(log);
    assert SamePayload(log[k].hash.tx, log[0].hash.tx);
    assert Ladder(prices, suggestions);
    if log[0].hash.tx.gasPrice >= 5 {
      LadderGrows(prices, suggestions, k);
    }
    if t.priceCap.Some? {
      LadderCapped(prices, suggestions, t.priceCap.value, k);
    }
  }

  ghost predicate Boosting(pc: Pc, id: Id) {
    Holds(pc, id) && pc.point.BoostSend?
  }

  lemma SentWhen(log: seq<Version>, boosting: bool, i: nat)
    requires i < |log| && if boosting then ToSend(log) else Told(log)
    ensures log[i].sent <==> i == 0 || (log[i].reported && !(i == |log| - 1 && boosting))
  {
    if boosting && i < |log| - 1 {
      assert log[..|log|-1][i] == log[i];
    }
  }

  lemma ToldOrToSend(cfg: Config, cap: Option<nat>, rows: Table, pc: Pc, n: Notes, id: Id, log: seq<Version>, kept: seq<TxHash>)
    requires LogInv(cfg, cap, rows, pc, n, id, log, kept)
    ensures if Boosting(pc, id) then ToSend(log) else Told(log)
    ensures log != [] ==> kept == SentOf(log)
  {
  }

  /**
    What was sent for a request since its submission was stored are its versions, hash by hash and in order, without
    the boosts whose Update reported an error, and without the last while sending it is the watcher's next call.
  */
  lemma SentIfReported(cfg: Config, t: Terms, run: seq<Action>, id: Id, i: nat)
    requires Legal(cfg, t, run) && i < |Log(cfg, run, id)|
    ensures
      var s, log := After(cfg, run), Log(cfg, run, id);
      && Kept(s.store.sends, id) == SentOf(log)
      && id in s.born && s.born[id].wallet < |s.pcs|
      && (log[i].sent <==>
            i == 0 || (log[i].reported && !(i == |log| - 1 && Boosting(s.pcs[s.born[id].wallet], id))))
  {
    LogHolds(cfg, t, run, id);
    var s, log := After(cfg, run), Log(cfg, run, id);
    var w := s.born[id].wallet;
    ToldOrToSend(cfg, t.priceCap, s.store.rows, s.pcs[w], NotesOf(cfg, run, w), id, log, Kept(s.store.sends, id));
    SentWhen(log, Boosting(s.pcs[w], id), i);
  }

  lemma StepReported(cfg: Config, t: Terms, run: seq<Action>, w: nat, reply: Reply, id: Id)
    requires t.errorsTrue && w < |After(cfg, run).pcs| && Honours(cfg, t, After(cfg, run), Watch(w, reply))
    requires forall v :: v in Log(cfg, run, id) ==> v.reported
    ensures forall v :: v in Log(cfg, run + [Watch(w, reply)], id) ==> v.reported
  {
    LogRun(cfg, run, w, reply, id);
    var log := Log(cfg, run, id);
    assert forall i :: 0 <= i < |log| ==> log[i] in log;
  }

  lemma {:induction false} AllReported(cfg: Config, t: Terms, run: seq<Action>, id: Id)
    requires Legal(cfg, t, run) && t.errorsTrue
    ensures forall v :: v in Log(cfg, run, id) ==> v.reported
  {
    if run != [] {
      var before, a := run[..|run|-1], run[|run|-1];
      AllReported(cfg, t, before, id);
      assert before + [a] == run;
      if a.Watch? {
        StepReported(cfg, t, before, a.w, a.reply, id);
      }
    }
  }

  lemma {:induction false} AllSent(log: seq<Version>)
    requires forall i :: 0 <= i < |log| ==> log[i].sent
    ensures SentOf(log) == HashesOf(log)
  {
    if log != [] {
      AllSent(log[..|log|-1]);
      assert HashesOf(log) == HashesOf(log[..|log|-1]) + [log[|log|-1].hash];
    }
  }

  lemma SentAll(log: seq<Version>, boosting: bool)
    requires if boosting then ToSend(log) else Told(log)
    requires forall v :: v in log ==> v.reported
    ensures SentOf(log) == if boosting then HashesOf(log[..|log|-1]) else HashesOf(log)
  {
    AllSent(if boosting then log[..|log|-1] else log);
  }

  /** When errors are true, every version was sent, but for the last while sending it is the next call. */
  lemma SentAreVersions(cfg: Config, t: Terms, run: seq<Action>, id: Id)
    requires Legal(cfg, t, run) && t.errorsTrue && Log(cfg, run, id) != []
    ensures
      var s, log := After(cfg, run), Log(cfg, run, id);
      && id in s.born && s.born[id].wallet < |s.pcs|
      && Kept(s.store.sends, id)
         == if Boosting(s.pcs[s.born[id].wallet], id) then HashesOf(log[..|log|-1]) else HashesOf(log)
  {
    LogHolds(cfg, t, run, id);
    AllReported(cfg, t, run, id);
    var s, log := After(cfg, run), Log(cfg, run, id);
    var w := s.born[id].wallet;
    ToldOrToSend(cfg, t.priceCap, s.store.rows, s.pcs[w], NotesOf(cfg, run, w), id, log, Kept(s.store.sends, id));
    SentAll(log, Boosting(s.pcs[w], id));
  }

  lemma {:induction false} Paced(cfg: Config, cap: Option<nat>, log: seq<Version>, k: nat)
    requires Chain(cfg, cap, log) && k < |log|
    ensures k * cfg.boostAfterBlocks <= log[k].head - log[0].head
  {
    if k > 0 {
      Paced(cfg, cap, log, k - 1);
      assert k * cfg.boostAfterBlocks == (k - 1) * cfg.boostAfterBlocks + cfg.boostAfterBlocks;
    }
  }

  /**
    Over every run, whatever fails, a stored submitted row shows the full hash of its last version, its submission
    head is that of the first version and its last send head that of the last; k boosts of it took at least
    k * boostAfterBlocks blocks.
  */
  lemma BoostsArePaced(cfg: Config, t: Terms, run: seq<Action>, id: Id)
    requires Legal(cfg, t, run)
    requires id in After(cfg, run).store.rows && After(cfg, run).store.rows[id].Submitted()
    ensures
      var row, log := After(cfg, run).store.rows[id], Log(cfg, run, id);
      && |log| > 0 && row.hash == Some(log[|log|-1].hash) && row.submittedNumber == Some(log[0].head)
      && LastSend(row) == log[|log|-1].head
      && (|log| - 1) * cfg.boostAfterBlocks <= log[|log|-1].head - log[0].head
  {
    Reachable(cfg, t, run);
    LogHolds(cfg, t, run, id);
    LogOf(cfg, t, run, id);
    Paced(cfg, t.priceCap, Log(cfg, run, id), |Log(cfg, run, id)| - 1);
  }

  lemma QuotientBounds(k: nat, b: nat, span: int, e: nat)
    requires b > 0 && k * b <= span && span < (e + 1) * b
    ensures k <= e
  {
    if k > e {
      MulLe(b, e + 1, k);
    }
  }

  /** The stored price after k boosts, which took at least k periods, is capped by k. */
  lemma StoredPriceCapped(cfg: Config, t: Terms, run: seq<Action>, id: Id, row: Row) returns (k: nat)
    requires Legal(cfg, t, run) && t.priceCap.Some?
    requires id in After(cfg, run).store.rows && After(cfg, run).store.rows[id] == row && row.Submitted()
    ensures row.submittedNumber.Some? && k * cfg.boostAfterBlocks <= LastSend(row) - row.submittedNumber.value
    ensures row.gasPrice.Some? && Pow(5, k) * row.gasPrice.value <= Pow(6, k) * (2 * t.priceCap.value)
  {
    BoostsArePaced(cfg, t, run, id);
    StoredRowsAreConsistent(cfg, t, run, id);
    k := |Log(cfg, run, id)| - 1;
    PricesClimb(cfg, t, run, id, k);
  }

  /** k boosts within less than e + 1 periods are at most e. */
  lemma CapByBlocks(row: Row, cap: nat, k: nat, b: nat, e: nat)
    requires row.submittedNumber.Some? && row.gasPrice.Some? && b > 0
    requires k * b <= LastSend(row) - row.submittedNumber.value < (e + 1) * b
    requires Pow(5, k) * row.gasPrice.value <= Pow(6, k) * cap
    ensures Pow(5, e) * row.gasPrice.value <= Pow(6, e) * cap
  {
    QuotientBounds(k, b, LastSend(row) - row.submittedNumber.value, e);
    CapLater(row.gasPrice.value, cap, k, e);
  }

  /** So blocks bound the price: with suggestions up to S, 1.2^e times 2S when fewer than e + 1 boost periods passed. */
  lemma PriceByBlocks(cfg: Config, t: Terms, run: seq<Action>, id: Id, row: Row, e: nat)
    requires Legal(cfg, t, run) && cfg.boostAfterBlocks > 0 && t.priceCap.Some?
    requires id in After(cfg, run).store.rows && After(cfg, run).store.rows[id] == row && row.submittedNumber.Some?
    requires LastSend(row) - row.submittedNumber.value < (e + 1) * cfg.boostAfterBlocks
    ensures row.gasPrice.Some? && Pow(5, e) * row.gasPrice.value <= Pow(6, e) * (2 * t.priceCap.value)
  {
    var k := StoredPriceCapped(cfg, t, run, id, row);
    CapByBlocks(row, 2 * t.priceCap.value, k, cfg.boostAfterBlocks, e);
  }

  // ------------------------------------------------------------ when a boost is made

  predicate Following(pc: Pc) {
    pc.At? && (pc.point.ActiveReceipt? || pc.point.Unmine?)
  }

  lemma FollowedSubmitted(cfg: Config, rows: Table, born: Table, w: nat, pc: Pc)
    requires View(cfg, rows, born, w, pc) && Following(pc)
    ensures pc.row.Submitted()
  {
  }

  /** The row in hand shows its versions as long as no new one is signed. */
  lemma HeldShows(cfg: Config, t: Terms, run: seq<Action>, w: nat, pc: Pc)
    requires Legal(cfg, t, run) && w < |After(cfg, run).pcs| && pc == After(cfg, run).pcs[w] && Following(pc)
    ensures Backed(pc.row, Log(cfg, run, pc.row.id)) && pc.row.Submitted()
  {
    var s := After(cfg, run);
    Reachable(cfg, t, run);
    assert View(cfg, s.store.rows, s.born, w, pc);
    FollowedSubmitted(cfg, s.store.rows, s.born, w, pc);
    LogHolds(cfg, t, run, pc.row.id);
  }

  /** No receipt, and nothing left to clear. */
  predicate Gone(n: Notes, asked: Request, reply: Reply) {
    && n.read.Some?
    && ((asked.GetReceipt? && reply.NotIncluded? && n.read.value.minedNumber.None?)
        || (asked.Save? && reply.Done? && n.receipt.None? && n.signed.None?))
  }

  lemma GoneFollowing(cfg: Config, w: nat, pc: Pc, n: Notes, reply: Reply)
    requires Knows(cfg, w, pc, n) && Gone(n, Ask(cfg, w, pc), reply)
    ensures Following(pc) && pc.row.id == n.read.value.id && SentAt(n.read.value) == SentAt(pc.row) && n.head.Some?
  {
  }

  lemma GoneRule(cfg: Config, w: nat, n: Notes, asked: Request, reply: Reply, next: Pc)
    requires Rule(cfg, w, n, asked, reply, next) && Gone(n, asked, reply) && n.head.Some?
    ensures BoostRule(cfg, w, n.head.value, SentAt(n.read.value), next)
  {
  }

  lemma ShownAt(row: Row, log: seq<Version>)
    requires Backed(row, log) && row.Submitted()
    ensures log != [] && SentAt(row) == log[|log|-1].head
  {
  }

  /**
    When the node does not know the transaction, and the row is not noted as mined or the Update that clears that
    reported success: the Tick goes on to ask for a price exactly if boosting is enabled and the head it heard is at
    least boostAfterBlocks above the head of the request's last version; otherwise it ends without an error.
  */
  lemma BoostDecision(cfg: Config, t: Terms, run: seq<Action>, w: nat, reply: Reply, n: Notes)
    requires Legal(cfg, t, run) && w < |After(cfg, run).pcs| == |After(cfg, run).seen|
    requires Enabled(cfg, After(cfg, run), Watch(w, reply)) && n == NotesOf(cfg, run, w) && n.read.Some?
    requires
      var asked := Now(cfg, run, w);
      || (asked.GetReceipt? && reply.NotIncluded? && n.read.value.minedNumber.None?)
      || (asked.Save? && reply.Done? && n.receipt.None? && n.signed.None?)
    ensures
      var next, log := Apply(cfg, After(cfg, run), Watch(w, reply)).pcs[w], Log(cfg, run, n.read.value.id);
      && log != [] && n.head.Some?
      && if !cfg.disableBoosting && n.head.value - log[|log|-1].head >= cfg.boostAfterBlocks
         then Calls(cfg, w, next, GetPrice) else next == Idle(false)
  {
    var pc := After(cfg, run).pcs[w];
    KnowsHold(cfg, t, run, w);
    GoneFollowing(cfg, w, pc, n, reply);
    TicksFollowRules(cfg, t, run, w, reply);
    GoneRule(cfg, w, n, Ask(cfg, w, pc), reply, Apply(cfg, After(cfg, run), Watch(w, reply)).pcs[w]);
    HeldShows(cfg, t, run, w, pc);
    ShownAt(pc.row, Log(cfg, run, pc.row.id));
  }

  lemma BoostEnabled(cfg: Config, w: nat, pc: Pc, n: Notes)
    requires Knows(cfg, w, pc, n) && Ask(cfg, w, pc).Submit? && Ask(cfg, w, pc).boost
    ensures !cfg.disableBoosting
  {
  }

  /** With boosting disabled no replacement is ever sent. */
  lemma {:induction false} NoBoostsWhenDisabled(cfg: Config, t: Terms, run: seq<Action>)
    requires Legal(cfg, t, run) && cfg.disableBoosting
    ensures forall send :: send in After(cfg, run).store.sends ==> !send.boost
  {
    if run != [] {
      var before, a := run[..|run|-1], run[|run|-1];
      NoBoostsWhenDisabled(cfg, t, before);
      if a.Watch? {
        KnowsHold(cfg, t, before, a.w);
        if Now(cfg, before, a.w).Submit? && Now(cfg, before, a.w).boost {
          BoostEnabled(cfg, a.w, After(cfg, before).pcs[a.w], NotesOf(cfg, before, a.w));
        }
      }
    }
  }
}
