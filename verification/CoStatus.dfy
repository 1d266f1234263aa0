/**
 The ten-state status word of a coroutine context and the transition table that the seven
 `try_*_full` functions share.  A word is a 64-bit unsigned value: the low byte is the status
 code, the upper 56 bits are a version that every successful change increments.
 */
module CoStatus {

  datatype Status =
    | Ready            // Ready_Reset_Reset
    | YieldReset       // Yield_Reset_Reset
    | YieldSet         // Yield_Set_Reset
    | YieldBreak       // Yield_Break_Reset
    | SleepReset       // Sleep_Reset_Reset
    | SleepSet         // Sleep_Set_Reset
    | SleepBreak       // Sleep_Break_Reset
    | SleepSetSet      // Sleep_Set_Set
    | SleepSetBreak    // Sleep_Set_Break
    | SleepSetRemove   // Sleep_Set_Remove

  /** Which of the seven retry loops is running. */
  datatype Op = Resume | Yield | Sw | Sleep | SleepAdd | SleepRemove | SleepTimeout

  /** What one attempt decides: the status to install, or that nothing may change (result -1). */
  datatype Outcome = Move(next: Status, res: nat) | Refuse

  function Attempt(op: Op, st: Status): Outcome {
    match op
    case Resume =>
      (match st
       case YieldSet => Move(Ready, 0)
       case YieldReset => Move(YieldBreak, 1)
       case SleepReset => Move(SleepBreak, 2)
       case SleepSet => Move(SleepSetBreak, 3)
       case SleepSetSet => Move(SleepSetRemove, 4)
       case _ => Refuse)
    case Yield => if st.Ready? then Move(YieldReset, 1) else Refuse
    case Sw =>
      (match st
       case YieldReset => Move(YieldSet, 1)
       case YieldBreak => Move(Ready, 0)
       case SleepReset => Move(SleepSet, 2)
       case SleepBreak => Move(Ready, 0)
       case _ => Refuse)
    case Sleep => if st.Ready? then Move(SleepReset, 1) else Refuse
    case SleepAdd =>
      (match st
       case SleepSet => Move(SleepSetSet, 1)
       case SleepSetBreak => Move(Ready, 0)
       case _ => Refuse)
    case SleepRemove => if st.SleepSetRemove? then Move(Ready, 0) else Refuse
    case SleepTimeout => if st.SleepSetSet? then Move(Ready, 0) else Refuse
  }

  /** The `int` the source function returns for an outcome. */
  function ResultOf(o: Outcome): int {
    if o.Refuse? then -1 else o.res
  }

  /** The status after an outcome. */
  function StatusAfter(o: Outcome, st: Status): Status {
    if o.Refuse? then st else o.next
  }

  /** A context in one of these statuses has been suspended and not yet been woken. */
  predicate Unwoken(st: Status) {
    st.YieldReset? || st.YieldSet? || st.SleepReset? || st.SleepSet? || st.SleepSetSet?
  }

  /** A resume succeeds exactly on a suspended, unwoken context, and it always wakes it:
      this is why two resumes can never both succeed for one suspension. */
  lemma ResumeWakes(st: Status)
    ensures Attempt(Resume, st).Move? <==> Unwoken(st)
    ensures !Unwoken(StatusAfter(Attempt(Resume, st), st))
  {}

  // ---- the 64-bit word -------------------------------------------------------------------

  const VERSIONS: nat := 0x100_0000_0000_0000

  type Word = w: nat | w < 0x1_0000_0000_0000_0000

  function Code(st: Status): (c: nat)
    ensures c < 256
  {
    match st
    case Ready => 0x00
    case YieldReset => 0x10
    case YieldSet => 0x14
    case YieldBreak => 0x18
    case SleepReset => 0x20
    case SleepSet => 0x24
    case SleepBreak => 0x28
    case SleepSetSet => 0x25
    case SleepSetBreak => 0x26
    case SleepSetRemove => 0x27
  }

  /** The codes of the header: two bits each for status, switch and sleep. */
  lemma StatusCodes()
    ensures Code(Ready) == 0x00
    ensures Code(YieldReset) == 0x10 && Code(YieldSet) == 0x14 && Code(YieldBreak) == 0x18
    ensures Code(SleepReset) == 0x20 && Code(SleepSet) == 0x24 && Code(SleepBreak) == 0x28
    ensures Code(SleepSetSet) == 0x25 && Code(SleepSetBreak) == 0x26 && Code(SleepSetRemove) == 0x27
  {}

  function Pack(version: nat, st: Status): (w: Word)
    requires version < VERSIONS
    ensures w / 256 == version && w % 256 == Code(st)
  {
    version * 256 + Code(st)
  }

  predicate Encodes(w: Word, st: Status) {
    w % 256 == Code(st)
  }

  predicate WellFormed(w: Word) {
    exists st :: Encodes(w, st)
  }

  function StatusOf(w: Word): (st: Status)
    requires WellFormed(w)
    ensures Encodes(w, st)
  {
    var c := w % 256;
    if c == 0x00 then Ready else if c == 0x10 then YieldReset else if c == 0x14 then YieldSet
    else if c == 0x18 then YieldBreak else if c == 0x20 then SleepReset
    else if c == 0x24 then SleepSet else if c == 0x28 then SleepBreak
    else if c == 0x25 then SleepSetSet else if c == 0x26 then SleepSetBreak
    else SleepSetRemove
  }

  lemma UniqueStatus(w: Word, st: Status)
    requires Encodes(w, st)
    ensures WellFormed(w) && StatusOf(w) == st
  {}

  /** The word that replaces `w`: next version (wrapping after 2^56 changes) and new status. */
  function NewWord(w: Word, st: Status): (r: Word)
    ensures Encodes(r, st) && WellFormed(r) && StatusOf(r) == st
    ensures r / 256 == (w / 256 + 1) % 0x100_0000_0000_0000
    ensures r != w
  {
    var r := Pack((w / 256 + 1) % VERSIONS, st);
    assert Encodes(r, st);
    r
  }

  /** The word `reset` stores: version 0, Yield_Set_Reset. */
  const RESET_WORD: Word := Pack(0, YieldSet)
}
