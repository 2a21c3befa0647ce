/** The case state machine: which state may follow which. */
module StateMachine {
  import opened Model

  function AllowedTransitions(current: CaseState): set<CaseState> {
    match current
    case DETECTED => {CONTEXT_GATHERED, CONTAINED, FAILED}
    case CONTEXT_GATHERED => {CANDIDATES_READY, CONTAINED, FAILED}
    case CANDIDATES_READY => {VALIDATING, CONTAINED, FAILED}
    case VALIDATING => {PATCH_READY, CONTAINED, FAILED}
    case PATCH_READY => {PR_OPEN, CONTAINED, FAILED}
    case PR_OPEN => {DEPLOYED, CONTAINED, FAILED}
    case DEPLOYED => {POST_DEPLOY_VERIFIED, CONTAINED, FAILED}
    case POST_DEPLOY_VERIFIED => {RESOLVED, CONTAINED, FAILED}
    case RESOLVED => {}
    case CONTAINED => {}
    case FAILED => {}
  }

  predicate Terminal(state: CaseState) {
    state in {RESOLVED, CONTAINED, FAILED}
  }

  /** A new case starts in DETECTED; otherwise the state repeats or moves along the table. */
  predicate ValidTransition(current: Option<CaseState>, target: CaseState) {
    match current
    case None => target == DETECTED
    case Some(state) => target == state || target in AllowedTransitions(state)
  }

  /** The position of a state on the way to RESOLVED; both failure states come last. */
  function Depth(state: CaseState): nat {
    match state
    case DETECTED => 0
    case CONTEXT_GATHERED => 1
    case CANDIDATES_READY => 2
    case VALIDATING => 3
    case PATCH_READY => 4
    case PR_OPEN => 5
    case DEPLOYED => 6
    case POST_DEPLOY_VERIFIED => 7
    case RESOLVED => 8
    case CONTAINED => 9
    case FAILED => 9
  }

  /** The table by depth: a case starts in DETECTED; later it stays where it is, or, unless its
      state is terminal, moves one stage on or into one of the two failure states. */
  lemma {:induction false} TransitionsMean(current: Option<CaseState>, target: CaseState)
    ensures ValidTransition(current, target) <==>
            if current.None? then target == DETECTED
            else
              || target == current.value
              || (current.value !in {RESOLVED, CONTAINED, FAILED}
                  && (target in {CONTAINED, FAILED} || Depth(target) == Depth(current.value) + 1))
    ensures [Depth(DETECTED), Depth(CONTEXT_GATHERED), Depth(CANDIDATES_READY), Depth(VALIDATING), Depth(PATCH_READY),
             Depth(PR_OPEN), Depth(DEPLOYED), Depth(POST_DEPLOY_VERIFIED), Depth(RESOLVED)]
            == [0, 1, 2, 3, 4, 5, 6, 7, 8]
  {
  }

  /** A run of states from DETECTED, each following the last by a valid transition. */
  ghost predicate StatePath(states: seq<CaseState>) {
    && (states != [] ==> states[0] == DETECTED)
    && (forall i {:trigger states[i]} :: 0 < i < |states| ==> ValidTransition(Some(states[i - 1]), states[i]))
  }

  /** Along any path no stage is revisited: depth never falls, and it only stays equal
      while the state repeats. So a terminal state, once reached, holds to the end. */
  lemma {:induction false} PathsNeverGoBack(states: seq<CaseState>, i: nat, j: nat)
    requires StatePath(states) && i <= j < |states|
    ensures Depth(states[i]) <= Depth(states[j])
    ensures Depth(states[i]) == Depth(states[j]) ==> states[i] == states[j]
    ensures Terminal(states[i]) ==> states[j] == states[i]
    decreases j
  {
    if i < j {
      PathsNeverGoBack(states, i, j - 1);
      assert ValidTransition(Some(states[j - 1]), states[j]);
    }
  }
}
