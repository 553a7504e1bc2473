/** Process-local state of suspended replays: what may still be resumed, and what already was. */
module Registry {
  import opened Contracts
  import opened Evaluator
  import opened Replay

  /** `R` identifies a pending continuation, as an object's identity does. */
  datatype Table<R> = Table(pending: map<string, R>, consumed: set<string>)
  {
    predicate Knows(id: string) { id in pending || id in consumed }
  }

  function Registered<R>(t: Table<R>, id: string, r: R): Table<R> {
    t.(pending := t.pending[id := r])
  }

  function Discarded<R>(t: Table<R>, id: string): Table<R> {
    t.(pending := t.pending - {id})
  }

  /** The table once `id` is consumed. */
  function Consumed<R>(t: Table<R>, id: string): Table<R> {
    Table(t.pending - {id}, t.consumed + {id})
  }

  predicate Holds<R(==)>(t: Table<R>, id: string, r: R) {
    id in t.pending && t.pending[id] == r
  }

  /** One suspended replay; two of them are the same only as objects. */
  class Pending {
    const definition: Definition
    const checkpoint: Checkpoint
    const inputs: Inputs
    const context: Context

    constructor (definition: Definition, checkpoint: Checkpoint, inputs: Inputs, context: Context)
      ensures this.definition == definition && this.checkpoint == checkpoint
      ensures this.inputs == inputs && this.context == context
    {
      this.definition := definition;
      this.checkpoint := checkpoint;
      this.inputs := inputs;
      this.context := context;
    }
  }

  class ReplayContinuationRegistry {
    var pending: map<string, Pending>
    var consumed: set<string>

    ghost function View(): Table<Pending>
      reads this
    {
      Table(pending, consumed)
    }

    /** A consumed identifier is never pending again. */
    ghost predicate Valid()
      reads this
    {
      pending.Keys !! consumed
    }

    constructor ()
      ensures Valid() && View() == Table(map[], {})
    {
      pending := map[];
      consumed := {};
    }

    method Register(id: string, definition: Definition, checkpoint: Checkpoint, inputs: Inputs, context: Context)
      returns (r: Option<Pending>)
      requires Valid()
      modifies this
      ensures Valid()
      ensures r == None <==> old(View()).Knows(id)
      ensures r == None ==> View() == old(View())
      ensures r.Some? ==>
        && fresh(r.value) && r.value !in old(pending).Values
        && r.value.definition == definition && r.value.checkpoint == checkpoint
        && r.value.inputs == inputs && r.value.context == context
        && View() == Registered(old(View()), id, r.value)
    {
      if id in pending || id in consumed {
        return None;
      }
      var p := new Pending(definition, checkpoint, inputs, context);
      pending := pending[id := p];
      return Some(p);
    }

    method Get(id: string) returns (r: Option<Pending>)
      ensures r == if id in pending then Some(pending[id]) else None
    {
      return if id in pending then Some(pending[id]) else None;
    }

    method Discard(id: string)
      requires Valid()
      modifies this
      ensures Valid() && View() == Discarded(old(View()), id)
    {
      pending := pending - {id};
    }

    method Consume(id: string, p: Pending) returns (ok: bool)
      requires Valid()
      modifies this
      ensures Valid()
      ensures ok == Holds(old(View()), id, p)
      ensures View() == if ok then Consumed(old(View()), id) else old(View())
    {
      if id !in pending || pending[id] != p {
        return false;
      }
      pending := pending - {id};
      consumed := consumed + {id};
      return true;
    }

    method WasConsumed(id: string) returns (b: bool)
      ensures b == (id in consumed)
    {
      return id in consumed;
    }
  }
}
