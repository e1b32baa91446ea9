/** The signed transactions sent for one request since its last successful first submission. */
module Sends {
  import opened Types
  import opened Watcher
  import opened System

  /** The transactions sent for `id`: the last successful first submission and the boosts after it. */
  function Kept(sends: seq<Send>, id: Id): seq<TxHash> {
    if sends == [] then []
    else
      var before, last := Kept(sends[..|sends|-1], id), sends[|sends|-1];
      if last.id != id then before
      else if last.boost then before + [last.hash]
      else if last.ok then [last.hash]
      else before
  }

  lemma KeptAppend(sends: seq<Send>, send: Send, id: Id)
    ensures
      Kept(sends + [send], id)
      == if send.id != id then Kept(sends, id)
         else if send.boost then Kept(sends, id) + [send.hash]
         else if send.ok then [send.hash]
         else Kept(sends, id)
  {
    assert (sends + [send])[..|sends|] == sends;
  }

  /** The transactions kept for the row held, after the call. */
  function KeptAfter(cfg: Config, w: nat, row: Row, point: Point, reply: Reply, kept: seq<TxHash>): seq<TxHash> {
    if point.BoostSend? && reply.Sent? then kept + [point.hash]
    else if point.SendSubmit? && reply.Sent? && reply.ok then [TxHash(point.tx, point.signature)]
    else kept
  }

  /** The send of the call, if it is one. */
  function SendOf(w: nat, row: Row, point: Point, reply: Reply): Option<Send> {
    if !reply.Sent? then None
    else if point.BoostSend? then Some(Send(w, row.id, point.hash, true, reply.ok, reply.accepted))
    else if point.SendSubmit? then
      Some(Send(w, row.id, TxHash(point.tx, point.signature), false, reply.ok, reply.accepted))
    else None
  }

  lemma SendsAfterWatch(cfg: Config, store: Store, w: nat, row: Row, point: Point, reply: Reply)
    ensures
      var sends', send := Effect(store, w, AskAt(cfg, w, row, point), reply).sends, SendOf(w, row, point, reply);
      sends' == if send.Some? then store.sends + [send.value] else store.sends
  {
  }

  /** A watcher's call adds at most one transaction, to what is kept for the row it holds. */
  lemma KeptWatch(cfg: Config, store: Store, w: nat, pc: Pc, reply: Reply, id: Id)
    ensures
      var sends' := Effect(store, w, Ask(cfg, w, pc), reply).sends;
      Kept(sends', id) == if pc.At? && id == pc.row.id then
                            KeptAfter(cfg, w, pc.row, pc.point, reply, Kept(store.sends, id))
                          else Kept(store.sends, id)
  {
    if pc.At? {
      SendsAfterWatch(cfg, store, w, pc.row, pc.point, reply);
      var send := SendOf(w, pc.row, pc.point, reply);
      if send.Some? {
        KeptAppend(store.sends, send.value, id);
      }
    }
  }
}
