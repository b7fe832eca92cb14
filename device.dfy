/**
 * The in-memory instrument both TXM classes are modelled against, as the
 * unplugged TXM of tests/tools.py keeps it: a map from PV name to value,
 * read with `DeviceGet` and written by the class's `_pv_put`.
 *
 * Every `_pv_put` call is logged as a `Put`. How the device answers a put
 * is fixed per PV name (acknowledged unless the name is listed otherwise);
 * only an acknowledged put stores its value.
 */
module Device {
  import opened Common
  import opened PvDescriptor

  /** One `_pv_put(pv_name, value, wait)` call. */
  datatype Put = Put(name: string, value: Value, wait: bool)

  /** The device's answer to a put on `name`. */
  function ReplyTo(replies: map<string, Reply>, name: string): Reply {
    if name in replies then replies[name] else Acked
  }

  /** The device after one put. */
  function Store(pvs: map<string, Value>, replies: map<string, Reply>, p: Put): map<string, Value> {
    if ReplyTo(replies, p.name) == Acked then pvs[p.name := p.value] else pvs
  }

  /** The device after the puts, in order. */
  function Replay(pvs: map<string, Value>, replies: map<string, Reply>, puts: seq<Put>): map<string, Value>
    decreases |puts|
  {
    if puts == [] then pvs
    else Store(Replay(pvs, replies, puts[..|puts| - 1]), replies, puts[|puts| - 1])
  }

  lemma ReplaySnoc(pvs: map<string, Value>, replies: map<string, Reply>, puts: seq<Put>, p: Put)
    ensures Replay(pvs, replies, puts + [p]) == Store(Replay(pvs, replies, puts), replies, p)
  {
    assert (puts + [p])[..|puts|] == puts;
  }

  /** Replaying two runs of puts is replaying the second on the device the first left. */
  lemma {:induction false} ReplayAppend(pvs: map<string, Value>, replies: map<string, Reply>, a: seq<Put>, b: seq<Put>)
    ensures Replay(pvs, replies, a + b) == Replay(Replay(pvs, replies, a), replies, b)
    decreases |b|
  {
    if b == [] {
      assert a + b == a;
    } else {
      var init := b[..|b| - 1];
      assert (a + b)[..|a + b| - 1] == a + init;
      ReplayAppend(pvs, replies, a, init);
    }
  }

  /** The position of the last put to `name`, if there is one. */
  function LastPutTo(puts: seq<Put>, name: string): (k: Option<nat>)
    ensures k.Some? ==> k.value < |puts| && puts[k.value].name == name
                        && forall j :: k.value < j < |puts| ==> puts[j].name != name
    ensures k.None? ==> forall j :: 0 <= j < |puts| ==> puts[j].name != name
    decreases |puts|
  {
    if puts == [] then None
    else if puts[|puts| - 1].name == name then Some(|puts| - 1)
    else LastPutTo(puts[..|puts| - 1], name)
  }

  /**
   * A read after the puts sees the value of the last put to that name when
   * the device acknowledges puts to it, and the original value otherwise.
   */
  lemma {:induction false} ReplayReads(pvs: map<string, Value>, replies: map<string, Reply>, puts: seq<Put>, name: string)
    ensures DeviceGet(Replay(pvs, replies, puts), name)
            == match LastPutTo(puts, name)
               case Some(k) => if ReplyTo(replies, name) == Acked then puts[k].value else DeviceGet(pvs, name)
               case None => DeviceGet(pvs, name)
    decreases |puts|
  {
    if puts != [] {
      var init := puts[..|puts| - 1];
      ReplayReads(pvs, replies, init, name);
      if puts[|puts| - 1].name != name {
        assert LastPutTo(puts, name) == LastPutTo(init, name);
        match LastPutTo(init, name)
        case Some(k) => assert puts[k] == init[k];
        case None =>
      }
    }
  }

  /** An assignment `txm.<attribute> = value` through a descriptor. */
  datatype Write = Write(pv: Descriptor, value: Value)

  /**
   * The put a write makes, if it makes one: `__set__` calls `pv_put` only
   * when permitted, and `pv_put` inside a `wait_pvs` scope (`queued`) never
   * waits. The same in both revisions.
   */
  function SendOf(w: Write, prefix: string, hasPermit: bool, queued: bool): seq<Put> {
    if Permitted(w.pv, hasPermit) then [Put(PvName(w.pv, prefix), w.value, !queued && w.pv.wait)] else []
  }

  /** The puts a sequence of writes makes, in order. */
  function Sends(ws: seq<Write>, prefix: string, hasPermit: bool, queued: bool): seq<Put>
    decreases |ws|
  {
    if ws == [] then []
    else Sends(ws[..|ws| - 1], prefix, hasPermit, queued) + SendOf(ws[|ws| - 1], prefix, hasPermit, queued)
  }

  lemma SendsSnoc(ws: seq<Write>, w: Write, prefix: string, hasPermit: bool, queued: bool)
    ensures Sends(ws + [w], prefix, hasPermit, queued) == Sends(ws, prefix, hasPermit, queued) + SendOf(w, prefix, hasPermit, queued)
  {
    assert (ws + [w])[..|ws|] == ws;
  }

  lemma SendsOne(w: Write, prefix: string, hasPermit: bool, queued: bool)
    ensures Sends([w], prefix, hasPermit, queued) == SendOf(w, prefix, hasPermit, queued)
  {
    assert [w][..0] == [];
  }

  lemma SendsPair(v: Write, w: Write, prefix: string, hasPermit: bool, queued: bool)
    ensures Sends([v, w], prefix, hasPermit, queued) == SendOf(v, prefix, hasPermit, queued) + SendOf(w, prefix, hasPermit, queued)
  {
    assert [v, w][..1] == [v];
    SendsOne(v, prefix, hasPermit, queued);
  }

  /** One more write, after a given log prefix. */
  lemma SendsStep(s0: seq<Put>, ws: seq<Write>, w: Write, prefix: string, hasPermit: bool, queued: bool)
    ensures s0 + Sends(ws, prefix, hasPermit, queued) + SendOf(w, prefix, hasPermit, queued) == s0 + Sends(ws + [w], prefix, hasPermit, queued)
  {
    SendsSnoc(ws, w, prefix, hasPermit, queued);
  }

  lemma {:induction false} SendsAppend(a: seq<Write>, b: seq<Write>, prefix: string, hasPermit: bool, queued: bool)
    ensures Sends(a + b, prefix, hasPermit, queued) == Sends(a, prefix, hasPermit, queued) + Sends(b, prefix, hasPermit, queued)
    decreases |b|
  {
    if b == [] {
      assert a + b == a;
    } else {
      var init := b[..|b| - 1];
      assert a + b == (a + init) + [b[|b| - 1]];
      SendsSnoc(a + init, b[|b| - 1], prefix, hasPermit, queued);
      SendsAppend(a, init, prefix, hasPermit, queued);
    }
  }

  /**
   * With the permit every write is sent; each put goes to the write's PV
   * name, carries its value, and waits only outside a `wait_pvs` scope and
   * when the descriptor waits.
   */
  lemma {:induction false} SendsWithPermit(ws: seq<Write>, prefix: string, queued: bool)
    ensures var s := Sends(ws, prefix, true, queued);
            |s| == |ws| && forall i :: 0 <= i < |ws| ==> s[i] == Put(PvName(ws[i].pv, prefix), ws[i].value, !queued && ws[i].pv.wait)
    decreases |ws|
  {
    if ws != [] {
      SendsWithPermit(ws[..|ws| - 1], prefix, queued);
    }
  }

  /** The writes of `ws` whose descriptor does not require the permit, in order. */
  function PermitFree(ws: seq<Write>): seq<Write>
    decreases |ws|
  {
    if ws == [] then []
    else PermitFree(ws[..|ws| - 1]) + (if ws[|ws| - 1].pv.permitRequired then [] else [ws[|ws| - 1]])
  }

  /**
   * Without the permit a write to a PV that requires it sends nothing and
   * every other write sends as it would with the permit.
   */
  lemma {:induction false} SendsWithoutPermit(ws: seq<Write>, prefix: string, queued: bool)
    ensures Sends(ws, prefix, false, queued) == Sends(PermitFree(ws), prefix, true, queued)
    decreases |ws|
  {
    if ws != [] {
      var init, w := ws[..|ws| - 1], ws[|ws| - 1];
      SendsWithoutPermit(init, prefix, queued);
      if w.pv.permitRequired {
        assert PermitFree(ws) == PermitFree(init);
        assert Sends(ws, prefix, false, queued) == Sends(init, prefix, false, queued);
      } else {
        SendsSnoc(PermitFree(init), w, prefix, true, queued);
      }
    }
  }
}
