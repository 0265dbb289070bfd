/** Greedy generation over a session. */
module Generate {
  import opened Wrappers
  import opened Sequences
  import opened Executor
  import opened Session
  import opened Maximum

  /** Greedy generation over a choice function. */
  function Greedy(pick: seq<nat> -> nat, ids: seq<nat>, stop: seq<nat>, budget: nat): seq<nat>
    decreases budget
  {
    if budget == 0 || pick(ids) in stop then []
    else [pick(ids)] + Greedy(pick, ids + [pick(ids)], stop, budget - 1)
  }

  /** Every token is the choice after the list before it, none is a stop token, and only a stop token or the budget
      ends the list. */
  ghost predicate IsGreedy(pick: seq<nat> -> nat, ids: seq<nat>, stop: seq<nat>, budget: nat, out: seq<nat>) {
    && |out| <= budget
    && (forall k :: 0 <= k < |out| ==> out[k] == pick(ids + out[..k]) && out[k] !in stop)
    && (|out| < budget ==> pick(ids + out) in stop)
  }

  lemma {:induction false} GreedyIsGreedy(pick: seq<nat> -> nat, ids: seq<nat>, stop: seq<nat>, budget: nat)
    ensures IsGreedy(pick, ids, stop, budget, Greedy(pick, ids, stop, budget))
    decreases budget
  {
    assert ids + [] == ids;
    if budget > 0 && pick(ids) !in stop {
      var next := pick(ids);
      var rest := Greedy(pick, ids + [next], stop, budget - 1);
      GreedyIsGreedy(pick, ids + [next], stop, budget - 1);
      var out := [next] + rest;
      assert ids + out == ids + [next] + rest;
      forall k | 0 <= k < |out| ensures out[k] == pick(ids + out[..k]) && out[k] !in stop {
        if k > 0 {
          assert ids + out[..k] == ids + [next] + rest[..k - 1];
        } else {
          assert ids + out[..0] == ids;
        }
      }
    }
  }

  lemma {:induction false} GreedyIsUnique(pick: seq<nat> -> nat, ids: seq<nat>, stop: seq<nat>, budget: nat, out: seq<nat>)
    requires IsGreedy(pick, ids, stop, budget, out)
    ensures out == Greedy(pick, ids, stop, budget)
    decreases budget
  {
    assert ids + [] == ids;
    if out == [] {
    } else {
      assert out[0] == pick(ids + out[..0]) && ids + out[..0] == ids;
      var next := out[0];
      forall k | 0 <= k < |out[1..]| ensures out[1..][k] == pick(ids + [next] + out[1..][..k]) && out[1..][k] !in stop {
        assert out[k + 1] == pick(ids + out[..k + 1]);
        assert ids + out[..k + 1] == ids + [next] + out[1..][..k];
      }
      assert ids + out == ids + [next] + out[1..];
      GreedyIsUnique(pick, ids + [next], stop, budget - 1, out[1..]);
    }
  }

  // ---- the repetition penalty ----

  const EPSILON := 0.00000011920929

  predicate PenaltyOff(penalty: real) { -EPSILON < penalty - 1.0 < EPSILON }

  function Penalize(score: real, penalty: real): real
    requires penalty != 0.0
  {
    if score < 0.0 then score * penalty else score / penalty
  }

  function Penalized(logits: seq<real>, seen: set<nat>, penalty: real): seq<real>
    requires penalty != 0.0
  {
    if PenaltyOff(penalty) then logits
    else seq(|logits|, i requires 0 <= i < |logits| => if i in seen then Penalize(logits[i], penalty) else logits[i])
  }

  /** The tokens seen are visited in any order, each once. */
  method ApplyRepetitionPenalty(logits: array<real>, seen: map<nat, nat>, penalty: real)
    requires penalty != 0.0
    modifies logits
    ensures logits[..] == Penalized(old(logits[..]), seen.Keys, penalty)
  {
    if PenaltyOff(penalty) || |seen| == 0 {
      assert seen.Keys == {} || PenaltyOff(penalty);
      assert logits[..] == Penalized(old(logits[..]), seen.Keys, penalty);
      return;
    }
    var left := seen.Keys;
    while left != {}
      invariant left <= seen.Keys
      invariant forall i :: 0 <= i < logits.Length ==>
        logits[i] == if i in seen.Keys - left then Penalize(old(logits[i]), penalty) else old(logits[i])
      decreases |left|
    {
      var token :| token in left;
      left := left - {token};
      if token < logits.Length {
        logits[token] := Penalize(logits[token], penalty);
      }
    }
    assert logits[..] == Penalized(old(logits[..]), seen.Keys, penalty);
  }

  /** How often each token occurs, for the tokens that do. */
  ghost predicate Counts(seen: map<nat, nat>, ids: seq<nat>) {
    seen.Keys == SetOf(ids) && forall id :: id in seen ==> seen[id] == multiset(ids)[id]
  }

  /** The same, looked into only when asked for. */
  ghost predicate Tallies(seen: map<nat, nat>, ids: seq<nat>) {
    forall g {:trigger LookBack(g)} :: LookBack(g) && g == ids ==> Counts(seen, g)
  }

  lemma CountsGrow(seen: map<nat, nat>, ids: seq<nat>, id: nat)
    requires Counts(seen, ids)
    ensures Counts(Counted(seen, id), ids + [id])
  {
  }

  method CountSeen(ids: seq<nat>) returns (seen: map<nat, nat>)
    ensures Counts(seen, ids)
  {
    seen := map[];
    for i := 0 to |ids|
      invariant Counts(seen, ids[..i])
    {
      CountsGrow(seen, ids[..i], ids[i]);
      assert ids[..i + 1] == ids[..i] + [ids[i]];
      seen := Counted(seen, ids[i]);
    }
    assert ids[..|ids|] == ids;
  }

  function Counted(seen: map<nat, nat>, id: nat): map<nat, nat> {
    seen[id := (if id in seen then seen[id] else 0) + 1]
  }

  /** The choice of the branch with logits on the host. */
  function HostPick<E>(d: Device<E>, penalty: real): seq<nat> -> nat
    requires penalty != 0.0
  {
    (ids: seq<nat>) => AsTokenId(FirstMax(Penalized(LogitsAfter(d, ids), SetOf(ids), penalty)))
  }

  function DevicePick<E>(session: IreeSession<E>): seq<nat> -> nat {
    (ids: seq<nat>) => session.PickAfter(ids)
  }

  // ---- the two loops ----

  predicate LookBack(generated: seq<nat>) { true }

  /** What was generated, and what is still to come; it is looked into only when asked for. */
  ghost predicate OnTrack(pick: seq<nat> -> nat, ids: seq<nat>, stop: seq<nat>, left: nat, generated: seq<nat>,
                          whole: seq<nat>)
  {
    forall g {:trigger LookBack(g)} :: LookBack(g) && g == generated ==> g + Greedy(pick, ids, stop, left) == whole
  }

  lemma StartsOnTrack(pick: seq<nat> -> nat, ids: seq<nat>, stop: seq<nat>, budget: nat)
    ensures OnTrack(pick, ids, stop, budget, [], Greedy(pick, ids, stop, budget))
  {
  }

  lemma StaysOnTrack(pick: seq<nat> -> nat, ids: seq<nat>, stop: seq<nat>, left: nat, generated: seq<nat>,
                     whole: seq<nat>, next: nat)
    requires OnTrack(pick, ids, stop, left, generated, whole) && left > 0 && next == pick(ids) && next !in stop
    ensures OnTrack(pick, ids + [next], stop, left - 1, generated + [next], whole)
  {
    assert LookBack(generated);
    Associate(generated, [next], Greedy(pick, ids + [next], stop, left - 1));
  }

  lemma EndsOnTrack(pick: seq<nat> -> nat, ids: seq<nat>, stop: seq<nat>, left: nat, generated: seq<nat>,
                    whole: seq<nat>)
    requires OnTrack(pick, ids, stop, left, generated, whole) && (left == 0 || pick(ids) in stop)
    ensures generated == whole
  {
    assert LookBack(generated);
  }

  /** The session has taken in exactly these tokens, whatever its memory holds. */
  ghost predicate Stands<E>(session: IreeSession<E>, ids: seq<nat>)
    reads session, session.context
  {
    session.Valid() && session.batchSize == 1 && session.history == ids && session.position == |ids|
  }

  /** The session stands after the plain list of these tokens; this is looked into only when asked for. */
  ghost predicate Ready<E>(session: IreeSession<E>, ids: seq<nat>)
    reads session, session.context
  {
    forall g {:trigger LookBack(g)} :: LookBack(g) && g == ids ==> session.After(g)
  }

  /** What is returned: the prompt and the new tokens, none of them a stop token, and at most so many. */
  ghost predicate Continues(r: (seq<nat>, seq<nat>), prompt: seq<nat>, stop: seq<nat>, maxNew: nat) {
    r.0 == prompt + r.1 && |r.1| <= maxNew && forall t :: t in r.1 ==> t !in stop
  }

  /** The branch without a penalty: the token is chosen by the session. */
  method GenerateByToken<E>(session: IreeSession<E>, prompt: seq<nat>, stop: seq<nat>, maxNew: nat)
    returns (r: Result<(seq<nat>, seq<nat>), Error>)
    requires session.Valid()
    modifies session, session.context`kv
    ensures session.Valid()
    ensures r.Ok? ==> Continues(r.value, prompt, stop, maxNew) && Stands(session, r.value.0)
    ensures r.Ok? && session.Fits(prompt) ==>
              r.value.1 == Greedy(DevicePick(session), prompt, stop, maxNew) && session.After(r.value.0)
    ensures r.Err? && |prompt| + maxNew <= session.MaxSeq() ==> r.error != OverLimit
  {
    if prompt == [] {
      return Err(EmptyPrompt);
    }
    var out := session.PrefillArgmax(prompt);
    if out.Err? {
      return Err(out.error);
    }
    r := TokenLoop(session, prompt, out.value, stop, maxNew, DevicePick(session), session.Fits(prompt));
  }

  predicate LookInto(ids: seq<nat>) { true }

  /** The choice function is the session's; a list is looked into only when asked for. */
  ghost predicate IsDevicePick<E>(pick: seq<nat> -> nat, session: IreeSession<E>) {
    forall ids {:trigger LookInto(ids)} :: LookInto(ids) ==> pick(ids) == session.PickAfter(ids)
  }

  method TokenStep<E>(session: IreeSession<E>, ids: seq<nat>, next: nat, ghost pick: seq<nat> -> nat)
    returns (r: Result<nat, Error>)
    requires Stands(session, ids) && IsDevicePick(pick, session)
    modifies session, session.context`kv
    ensures session.Valid()
    ensures r.Ok? ==> Stands(session, ids + [next])
    ensures r.Ok? && old(session.Plain()) ==>
              session.After(ids + [next]) && r.value == pick(ids + [next])
    ensures r.Err? && |ids| < session.MaxSeq() ==> r.error != OverLimit
  {
    r := session.DecodeArgmax(next);
    assert LookInto(ids + [next]);
  }

  /** The flag says whether the memory is that of the plain list of tokens. */
  method TokenLoop<E>(session: IreeSession<E>, prompt: seq<nat>, first: nat, stop: seq<nat>, maxNew: nat,
                      ghost pick: seq<nat> -> nat, ghost plain: bool)
    returns (r: Result<(seq<nat>, seq<nat>), Error>)
    requires Stands(session, prompt) && IsDevicePick(pick, session)
    requires plain ==> session.Plain() && first == pick(prompt)
    modifies session, session.context`kv
    ensures session.Valid()
    ensures r.Ok? ==> Continues(r.value, prompt, stop, maxNew) && Stands(session, r.value.0)
    ensures r.Ok? && plain ==> r.value.1 == Greedy(pick, prompt, stop, maxNew) && session.After(r.value.0)
    ensures r.Err? && |prompt| + maxNew <= session.MaxSeq() ==> r.error != OverLimit
  {
    ghost var whole, left := Greedy(pick, prompt, stop, maxNew), maxNew;
    StartsOnTrack(pick, prompt, stop, maxNew);
    var ids, generated, next, i := prompt, [], first, 0;
    while i < maxNew
      invariant left == maxNew - i >= 0 && |ids| == |prompt| + i && Continues((ids, generated), prompt, stop, i)
      invariant Stands(session, ids)
      invariant plain ==> session.After(ids) && next == pick(ids)
                          && OnTrack(pick, ids, stop, left, generated, whole)
    {
      if next in stop {
        break;
      }
      if plain {
        StaysOnTrack(pick, ids, stop, left, generated, whole, next);
      }
      Associate(prompt, generated, [next]);
      var out := TokenStep(session, ids, next, pick);
      generated := generated + [next];
      ids := ids + [next];
      if out.Err? {
        return Err(out.error);
      }
      next := out.value;
      i, left := i + 1, left - 1;
    }
    if plain {
      EndsOnTrack(pick, ids, stop, left, generated, whole);
    }
    return Ok((ids, generated));
  }

  /** The branch with a penalty: logits come to the host and are changed before the choice. */
  method GenerateByLogits<E>(session: IreeSession<E>, prompt: seq<nat>, stop: seq<nat>, maxNew: nat, penalty: real)
    returns (r: Result<(seq<nat>, seq<nat>), Error>)
    requires session.Valid() && penalty != 0.0
    modifies session, session.context`kv
    ensures session.Valid()
    ensures r.Ok? ==> Continues(r.value, prompt, stop, maxNew) && Stands(session, r.value.0)
    ensures r.Ok? && session.Fits(prompt) ==>
              r.value.1 == Greedy(HostPick(session.context.device, penalty), prompt, stop, maxNew)
              && session.After(r.value.0)
    ensures r.Err? && |prompt| + maxNew <= session.MaxSeq() ==> r.error != OverLimit
  {
    if prompt == [] {
      return Err(EmptyPrompt);
    }
    var seen := CountSeen(prompt);
    var out, kvs := session.Prefill(prompt);
    if out.Err? {
      return Err(out.error);
    }
    r := LogitsLoop(session, prompt, out.value, seen, stop, maxNew, penalty, HostPick(session.context.device, penalty),
                    session.Fits(prompt));
  }

  method LogitsStep<E>(session: IreeSession<E>, ids: seq<nat>, seen: map<nat, nat>, next: nat, ghost plain: bool)
    returns (r: Result<seq<real>, Error>, seen': map<nat, nat>)
    requires Stands(session, ids) && Tallies(seen, ids) && (plain ==> Ready(session, ids))
    modifies session, session.context`kv
    ensures session.Valid() && Tallies(seen', ids + [next])
    ensures r.Ok? ==> Stands(session, ids + [next])
    ensures r.Ok? && plain ==>
              Ready(session, ids + [next]) && r.value == LogitsAfter(session.context.device, ids + [next])
    ensures r.Err? && |ids| < session.MaxSeq() ==> r.error != OverLimit
  {
    assert LookBack(ids);
    CountsGrow(seen, ids, next);
    seen' := Counted(seen, next);
    r := session.Decode(next);
  }

  /** The choice function is the one of the host; a list is looked into only when asked for. */
  ghost predicate IsHostPick<E>(pick: seq<nat> -> nat, d: Device<E>, penalty: real)
    requires penalty != 0.0
  {
    forall ids {:trigger LookInto(ids)} :: LookInto(ids) ==> pick(ids) == HostPick(d, penalty)(ids)
  }

  method LogitsLoop<E>(session: IreeSession<E>, prompt: seq<nat>, first: seq<real>, counted: map<nat, nat>,
                       stop: seq<nat>, maxNew: nat, penalty: real, ghost pick: seq<nat> -> nat, ghost plain: bool)
    returns (r: Result<(seq<nat>, seq<nat>), Error>)
    requires Stands(session, prompt) && penalty != 0.0 && IsHostPick(pick, session.context.device, penalty)
    requires Tallies(counted, prompt)
    requires plain ==> Ready(session, prompt) && first == LogitsAfter(session.context.device, prompt)
    modifies session, session.context`kv
    ensures session.Valid()
    ensures r.Ok? ==> Continues(r.value, prompt, stop, maxNew) && Stands(session, r.value.0)
    ensures r.Ok? && plain ==> r.value.1 == Greedy(pick, prompt, stop, maxNew) && session.After(r.value.0)
    ensures r.Err? && |prompt| + maxNew <= session.MaxSeq() ==> r.error != OverLimit
  {
    ghost var whole, left := Greedy(pick, prompt, stop, maxNew), maxNew;
    StartsOnTrack(pick, prompt, stop, maxNew);
    var ids, generated, values, seen, i := prompt, [], first, counted, 0;
    while i < maxNew
      invariant left == maxNew - i >= 0 && |ids| == |prompt| + i && Continues((ids, generated), prompt, stop, i)
      invariant Stands(session, ids) && Tallies(seen, ids)
      invariant plain ==> Ready(session, ids) && values == LogitsAfter(session.context.device, ids)
                          && OnTrack(pick, ids, stop, left, generated, whole)
    {
      var next := ChooseToken(session.context.device, ids, values, seen, penalty, pick);
      if next in stop {
        break;
      }
      if plain {
        StaysOnTrack(pick, ids, stop, left, generated, whole, next);
      }
      Associate(prompt, generated, [next]);
      var out;
      out, seen := LogitsStep(session, ids, seen, next, plain);
      generated := generated + [next];
      ids := ids + [next];
      if out.Err? {
        return Err(out.error);
      }
      values := out.value;
      i, left := i + 1, left - 1;
    }
    if plain {
      assert LookBack(ids);
      EndsOnTrack(pick, ids, stop, left, generated, whole);
    }
    return Ok((ids, generated));
  }

  method ChooseToken<E>(ghost d: Device<E>, ghost ids: seq<nat>, values: seq<real>, seen: map<nat, nat>, penalty: real,
                        ghost pick: seq<nat> -> nat)
    returns (next: nat)
    requires penalty != 0.0 && IsHostPick(pick, d, penalty) && Tallies(seen, ids)
    ensures next == AsTokenId(FirstMax(Penalized(values, SetOf(ids), penalty)))
    ensures values == LogitsAfter(d, ids) ==> next == pick(ids)
  {
    assert LookInto(ids) && LookBack(ids);
    var logits := new real[|values|](i requires 0 <= i < |values| => values[i]);
    assert logits[..] == values;
    ApplyRepetitionPenalty(logits, seen, penalty);
    var best := Argmax(logits[..]);
    next := AsTokenId(best);
  }

  // ---- the branches agree ----

  lemma {:induction false} GreedyCongruent(p: seq<nat> -> nat, q: seq<nat> -> nat, ids: seq<nat>, stop: seq<nat>,
                                           budget: nat)
    requires forall x :: p(x) == q(x)
    ensures Greedy(p, ids, stop, budget) == Greedy(q, ids, stop, budget)
    decreases budget
  {
    if budget > 0 && p(ids) !in stop {
      GreedyCongruent(p, q, ids + [p(ids)], stop, budget - 1);
    }
  }

  /** Without a penalty both branches generate the same tokens when the device picks what the host would. */
  lemma BranchesAgree<E>(session: IreeSession<E>, prompt: seq<nat>, stop: seq<nat>, maxNew: nat, penalty: real)
    requires penalty != 0.0 && PenaltyOff(penalty)
    requires forall x :: session.context.device.pick(session.context.device.logits(x))
                         == FirstMax(session.context.device.logits(x))
    ensures Greedy(DevicePick(session), prompt, stop, maxNew)
         == Greedy(HostPick(session.context.device, penalty), prompt, stop, maxNew)
  {
    forall x ensures DevicePick(session)(x) == HostPick(session.context.device, penalty)(x) {
    }
    GreedyCongruent(DevicePick(session), HostPick(session.context.device, penalty), prompt, stop, maxNew);
  }
}
