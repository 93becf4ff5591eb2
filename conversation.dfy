/**
 * The hook's conversation log as values: the turns it renders, the partial
 * update merged into the ephemeral user turn, and the store made of the log,
 * the tracked ephemeral id and the fresh-id counter that stands for uuidv4.
 */
module Conversation {
  import opened Wrappers

  /** A turn's id; the hook draws it from uuidv4, the model from a counter. */
  type Id = nat

  /** A turn's ISO-8601 creation time, kept opaque. */
  type Stamp = nat

  datatype Role = User | Assistant

  datatype Status = Speaking | Processing | Complete

  /** One entry of the log. `text` is None where the hook stores `undefined`. */
  datatype Turn = Turn(id: Id, role: Role, text: Option<string>, timestamp: Stamp, isFinal: bool, status: Status)

  /** The fields a `Partial<Conversation>` may carry; None is a field left out. */
  datatype Partial = Partial(text: Option<string>, status: Option<Status>, isFinal: Option<bool>)

  /** `{ ...msg, ...partial }`: the fields present in `p` win. */
  function Override(t: Turn, p: Partial): Turn {
    t.(text := if p.text.Some? then p.text else t.text,
       status := if p.status.Some? then p.status.value else t.status,
       isFinal := if p.isFinal.Some? then p.isFinal.value else t.isFinal)
  }

  /** `prev.map(msg => msg.id === id ? { ...msg, ...p } : msg)`. */
  function Merged(log: seq<Turn>, id: Id, p: Partial): (r: seq<Turn>)
    ensures |r| == |log|
  {
    if log == [] then []
    else [if log[0].id == id then Override(log[0], p) else log[0]] + Merged(log[1..], id, p)
  }

  /** Entry `k` of the merged log is entry `k` of the old one, overridden exactly when its id matches. */
  lemma {:induction false} MergedAt(log: seq<Turn>, id: Id, p: Partial, k: nat)
    requires k < |log|
    ensures Merged(log, id, p)[k] == if log[k].id == id then Override(log[k], p) else log[k]
  {
    if k > 0 {
      MergedAt(log[1..], id, p, k - 1);
    }
  }

  /** The merge keeps every id and role in place. */
  lemma {:induction false} MergedKeepsIds(log: seq<Turn>, id: Id, p: Partial)
    ensures forall k :: 0 <= k < |log| ==> Merged(log, id, p)[k].id == log[k].id && Merged(log, id, p)[k].role == log[k].role
  {
    forall k | 0 <= k < |log|
      ensures Merged(log, id, p)[k].id == log[k].id && Merged(log, id, p)[k].role == log[k].role
    {
      MergedAt(log, id, p, k);
    }
  }

  /** The store: the `conversation` state, `ephemeralUserMessageIdRef` and the id counter. */
  datatype Chat = Chat(log: seq<Turn>, ephemeral: Option<Id>, nextId: Id)

  /** The turn `getOrCreateEphemeralUserId` appends. */
  function EphemeralTurn(id: Id, now: Stamp): Turn {
    Turn(id, User, Some(""), now, false, Speaking)
  }

  /** `getOrCreateEphemeralUserId`: the new store and the id it returns. */
  function CreateEphemeral(c: Chat, now: Stamp): (Chat, Id) {
    match c.ephemeral
    case Some(e) => (c, e)
    case None => (Chat(c.log + [EphemeralTurn(c.nextId, now)], Some(c.nextId), c.nextId + 1), c.nextId)
  }

  /** `updateEphemeralUserMessage(p)`. */
  function UpdateEphemeral(c: Chat, p: Partial): Chat {
    match c.ephemeral
    case None => c
    case Some(e) => c.(log := Merged(c.log, e, p))
  }

  /** `clearEphemeralUserMessage`: forgets the id; the turn stays in the log. */
  function ClearEphemeral(c: Chat): Chat {
    c.(ephemeral := None)
  }

  /** The spread-append of a final, complete turn with a fresh id. */
  function AppendFinal(c: Chat, role: Role, text: Option<string>, now: Stamp): Chat {
    c.(log := c.log + [Turn(c.nextId, role, text, now, true, Complete)], nextId := c.nextId + 1)
  }

  /** Some entry of the log has id `id`. */
  ghost predicate HasId(log: seq<Turn>, id: Id) {
    exists i :: 0 <= i < |log| && log[i].id == id
  }

  /**
   * The store's invariant: ids are unique and below the counter, every
   * non-final entry is the user turn the ephemeral id tracks, and a tracked id
   * names an entry of the log.
   */
  ghost predicate Inv(c: Chat) {
    (forall i :: 0 <= i < |c.log| ==> c.log[i].id < c.nextId)
    && (forall i, j :: 0 <= i < j < |c.log| ==> c.log[i].id != c.log[j].id)
    && (forall i :: 0 <= i < |c.log| && !c.log[i].isFinal ==> c.log[i].role == User && c.ephemeral == Some(c.log[i].id))
    && (c.ephemeral.Some? ==> HasId(c.log, c.ephemeral.value))
  }

  /** The empty store the hook starts from and `stopSession` returns to keeps the invariant. */
  lemma EmptyInv(nextId: Id)
    ensures Inv(Chat([], None, nextId))
  {
  }

  /** Under the invariant at most one entry is non-final, and every assistant entry is final. */
  lemma AtMostOneNonFinal(c: Chat)
    requires Inv(c)
    ensures forall i, j :: 0 <= i < |c.log| && 0 <= j < |c.log| && !c.log[i].isFinal && !c.log[j].isFinal ==> i == j
    ensures forall i :: 0 <= i < |c.log| && c.log[i].role == Assistant ==> c.log[i].isFinal
  {
  }

  /**
   * `getOrCreateEphemeralUserId` is idempotent: with an id tracked it returns
   * it and changes nothing; otherwise it appends exactly one empty, non-final,
   * speaking user turn under an id no entry had, and tracks that id.
   */
  lemma CreateEphemeralSpec(c: Chat, now: Stamp)
    requires Inv(c)
    ensures c.ephemeral.Some? ==> CreateEphemeral(c, now) == (c, c.ephemeral.value)
    ensures c.ephemeral.None? ==>
      var (c', id) := CreateEphemeral(c, now);
      !HasId(c.log, id) && c'.ephemeral == Some(id)
      && |c'.log| == |c.log| + 1 && c'.log[..|c.log|] == c.log
      && c'.log[|c.log|] == Turn(id, User, Some(""), now, false, Speaking)
    ensures CreateEphemeral(CreateEphemeral(c, now).0, now) == CreateEphemeral(c, now)
  {
  }

  /** Creating keeps the invariant. */
  lemma CreateKeepsInv(c: Chat, now: Stamp)
    requires Inv(c)
    ensures Inv(CreateEphemeral(c, now).0)
  {
    if c.ephemeral.None? {
      var c' := CreateEphemeral(c, now).0;
      assert c'.log[|c.log|].id == c.nextId;
      assert forall i :: 0 <= i < |c.log| ==> c'.log[i] == c.log[i];
    }
  }

  /**
   * `updateEphemeralUserMessage(p)` does nothing without a tracked id;
   * otherwise the log keeps its length, the one entry with the tracked id is
   * overridden by `p` and every other entry is unchanged.
   */
  lemma UpdateEphemeralSpec(c: Chat, p: Partial)
    requires Inv(c)
    ensures c.ephemeral.None? ==> UpdateEphemeral(c, p) == c
    ensures c.ephemeral.Some? ==>
      var c' := UpdateEphemeral(c, p);
      c'.ephemeral == c.ephemeral && c'.nextId == c.nextId && |c'.log| == |c.log|
      && exists k :: 0 <= k < |c.log| && c.log[k].id == c.ephemeral.value
           && c'.log[k] == Override(c.log[k], p)
           && forall j :: 0 <= j < |c.log| && j != k ==> c'.log[j] == c.log[j]
  {
    if c.ephemeral.Some? {
      var e := c.ephemeral.value;
      var c' := UpdateEphemeral(c, p);
      var k :| 0 <= k < |c.log| && c.log[k].id == e;
      MergedAt(c.log, e, p, k);
      forall j | 0 <= j < |c.log| && j != k
        ensures c'.log[j] == c.log[j]
      {
        MergedAt(c.log, e, p, j);
        if j < k {
          assert c.log[j].id != c.log[k].id;
        } else {
          assert c.log[k].id != c.log[j].id;
        }
      }
    }
  }

  /** An update that leaves `isFinal` alone keeps the invariant. */
  lemma UpdateKeepsInv(c: Chat, p: Partial)
    requires Inv(c) && p.isFinal.None?
    ensures Inv(UpdateEphemeral(c, p))
  {
    if c.ephemeral.Some? {
      var e := c.ephemeral.value;
      var c' := UpdateEphemeral(c, p);
      MergedKeepsIds(c.log, e, p);
      forall i | 0 <= i < |c'.log| && !c'.log[i].isFinal
        ensures c'.log[i].role == User && c'.ephemeral == Some(c'.log[i].id)
      {
        MergedAt(c.log, e, p, i);
      }
      var k :| 0 <= k < |c.log| && c.log[k].id == e;
      assert c'.log[k].id == e;
    }
  }

  /** Finalising the tracked turn and then forgetting its id keeps the invariant. */
  lemma FinalizeKeepsInv(c: Chat, p: Partial)
    requires Inv(c) && p.isFinal == Some(true)
    ensures Inv(ClearEphemeral(UpdateEphemeral(c, p)))
  {
    if c.ephemeral.Some? {
      var e := c.ephemeral.value;
      var c' := ClearEphemeral(UpdateEphemeral(c, p));
      MergedKeepsIds(c.log, e, p);
      forall i | 0 <= i < |c'.log|
        ensures c'.log[i].isFinal
      {
        MergedAt(c.log, e, p, i);
      }
    }
  }

  /** Appending a final turn keeps the invariant. */
  lemma AppendFinalKeepsInv(c: Chat, role: Role, text: Option<string>, now: Stamp)
    requires Inv(c)
    ensures Inv(AppendFinal(c, role, text, now))
  {
    var c' := AppendFinal(c, role, text, now);
    assert forall i :: 0 <= i < |c.log| ==> c'.log[i] == c.log[i];
    if c.ephemeral.Some? {
      var k :| 0 <= k < |c.log| && c.log[k].id == c.ephemeral.value;
      assert c'.log[k].id == c.ephemeral.value;
    }
  }
}
