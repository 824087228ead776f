/** The call protocol every controller action follows, stated as a small automaton over
    traces, independently of the action handlers: one authorization query first; after a
    refusal nothing; after a grant one service step, and a delete only of exactly what
    the lookup just before it returned. */
module CallProtocol {
  import opened Functional
  import opened CrudController

  datatype Phase<K, D> =
    | Start
    | Refused
    | Admitted
    | Looked(found: Maybe<Model<K, D>>)
    | Listed(models: seq<Model<K, D>>)
    | Done

  /** The phase after `call`, or `None` when the protocol forbids the call here. */
  function Step<K(==), D(==), Q>(ph: Phase<K, D>, call: Call<K, D, Q>): Maybe<Phase<K, D>> {
    match ph
    case Start =>
      if call.Authorize? then Some(if call.granted then Admitted else Refused) else None
    case Refused => None
    case Admitted =>
      (match call
       case Authorize(_, _) => None
       case ReadPagedList(_) => Some(Done)
       case Find(_, found) => Some(Looked(found))
       case FindList(_, models) => Some(Listed(models))
       case CreateModel(_) => Some(Done)
       case EditModel(_) => Some(Done)
       case DeleteModel(_) => None
       case DeleteModels(_) => None)
    case Looked(found) =>
      if call.DeleteModel? && found == Some(call.model) then Some(Done) else None
    case Listed(models) =>
      if call.DeleteModels? && call.models == models then Some(Done) else None
    case Done => None
  }

  /** The trace is a legal run of the protocol from phase `ph`. */
  predicate Accepts<K(==), D(==), Q>(ph: Phase<K, D>, trace: seq<Call<K, D, Q>>)
    decreases |trace|
  {
    |trace| == 0 || (Step(ph, trace[0]).Some? && Accepts(Step(ph, trace[0]).value, trace[1..]))
  }

  /** How many more calls the protocol admits from each phase. */
  function Budget<K, D>(ph: Phase<K, D>): nat {
    match ph
    case Start => 3
    case Admitted => 2
    case Looked(_) => 1
    case Listed(_) => 1
    case Refused => 0
    case Done => 0
  }

  lemma {:induction false} AcceptedWithinBudget<K, D, Q>(ph: Phase<K, D>, trace: seq<Call<K, D, Q>>)
    requires Accepts(ph, trace)
    ensures |trace| <= Budget(ph)
    decreases |trace|
  {
    if |trace| > 0 {
      AcceptedWithinBudget(Step(ph, trace[0]).value, trace[1..]);
    }
  }

  /** Once past the start, a legal run never queries authorization again. */
  lemma {:induction false} NoLaterAuthorization<K, D, Q>(ph: Phase<K, D>, trace: seq<Call<K, D, Q>>)
    requires Accepts(ph, trace)
    requires !ph.Start?
    ensures forall i :: 0 <= i < |trace| ==> trace[i].IsServiceCall()
    decreases |trace|
  {
    if |trace| > 0 {
      NoLaterAuthorization(Step(ph, trace[0]).value, trace[1..]);
      forall i | 0 <= i < |trace|
        ensures trace[i].IsServiceCall()
      {
        if i > 0 {
          assert trace[i] == trace[1..][i - 1];
        }
      }
    }
  }

  /** A legal run opens with the authorization query, makes only service calls after it,
      and makes none at all when the query was refused. */
  lemma AuthorizationFirst<K, D, Q>(trace: seq<Call<K, D, Q>>)
    requires Accepts(Start, trace)
    requires |trace| > 0
    ensures trace[0].Authorize?
    ensures forall i :: 1 <= i < |trace| ==> trace[i].IsServiceCall()
    ensures !trace[0].granted ==> |trace| == 1
  {
    NoLaterAuthorization(Step(Start, trace[0]).value, trace[1..]);
    forall i | 1 <= i < |trace|
      ensures trace[i].IsServiceCall()
    {
      assert trace[i] == trace[1..][i - 1];
    }
    if !trace[0].granted {
      AcceptedWithinBudget(Step(Start, trace[0]).value, trace[1..]);
    }
  }

  /** In a legal run a single-model delete acts on exactly the model the lookup just
      before it found; a run from `Looked(found)` may open with that delete. */
  lemma {:induction false} DeletesOnlyFound<K, D, Q>(ph: Phase<K, D>, trace: seq<Call<K, D, Q>>, i: int)
    requires Accepts(ph, trace)
    requires 0 <= i < |trace| && trace[i].DeleteModel?
    ensures i == 0 ==> ph == Looked(Some(trace[0].model))
    ensures i > 0 ==> trace[i - 1].Find? && trace[i - 1].found == Some(trace[i].model)
    decreases |trace|
  {
    if i > 0 {
      DeletesOnlyFound(Step(ph, trace[0]).value, trace[1..], i - 1);
      if i == 1 {
        assert Step(ph, trace[0]).value == Looked(Some(trace[1].model));
      }
    }
  }

  /** In a legal run a batch delete acts on exactly the list the lookup just before it
      returned. */
  lemma {:induction false} DeletesOnlyListed<K, D, Q>(ph: Phase<K, D>, trace: seq<Call<K, D, Q>>, i: int)
    requires Accepts(ph, trace)
    requires 0 <= i < |trace| && trace[i].DeleteModels?
    ensures i == 0 ==> ph == Listed(trace[0].models)
    ensures i > 0 ==> trace[i - 1].FindList? && trace[i - 1].models == trace[i].models
    decreases |trace|
  {
    if i > 0 {
      DeletesOnlyListed(Step(ph, trace[0]).value, trace[1..], i - 1);
      if i == 1 {
        assert Step(ph, trace[0]).value == Listed(trace[1].models);
      }
    }
  }

  /** Every action of the controller follows the protocol. */
  lemma HandleFollowsProtocol<K, D, Q, P>(c: Settings<Q>, svc: Services<K, D, Q, P>, a: Action<K, D, Q>)
    ensures Accepts(Start, Handle(c, svc, a).trace)
  {
    var t := Handle(c, svc, a).trace;
    if |t| > 0 {
      var ph1 := Step(Start, t[0]).value;
      if |t| > 1 {
        var ph2 := Step(ph1, t[1]).value;
        if |t| > 2 {
          assert t[2..][1..] == [];
          assert Accepts(ph2, t[2..]);
        } else {
          assert t[2..] == [];
        }
        assert t[1..][1..] == t[2..];
      } else {
        assert t[1..] == [];
      }
    }
  }
}
