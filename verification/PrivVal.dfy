/**
 * The file-backed private validator (privval/file.go): what it agrees to sign, and what it writes to
 * disk before a signature leaves it.
 *
 * Sign bytes are an injective encoding, so they are modelled by what they encode. Signatures are
 * uninterpreted: `Sig(b)` is the key's signature over `b`.
 */
module PrivVal {
  import opened Common

  const STEP_NONE := 0
  const STEP_PROPOSE := 1
  const STEP_PREVOTE := 2
  const STEP_PRECOMMIT := 3

  datatype Kind = Prevote | Precommit

  /** The canonical vote and the canonical proposal, with the chain they are for. */
  datatype SignBytes =
    | VoteBytes(kind: Kind, height: int, round: int, block: Option<nat>, timestamp: int, chain: string)
    | ProposalBytes(height: int, round: int, polRound: int, block: Option<nat>, timestamp: int, chain: string)

  datatype Sig = Sig(over: SignBytes)

  function StepOf(b: SignBytes): int {
    if b.ProposalBytes? then STEP_PROPOSE else if b.kind == Prevote then STEP_PREVOTE else STEP_PRECOMMIT
  }

  predicate Less(h1: int, r1: int, s1: int, h2: int, r2: int, s2: int) {
    h1 < h2 || (h1 == h2 && (r1 < r2 || (r1 == r2 && s1 < s2)))
  }

  /** The height/round/step of one message is below that of another. */
  predicate Earlier(a: SignBytes, b: SignBytes) {
    Less(a.height, a.round, StepOf(a), b.height, b.round, StepOf(b))
  }

  predicate SameStep(a: SignBytes, b: SignBytes) {
    a.height == b.height && a.round == b.round && StepOf(a) == StepOf(b)
  }

  datatype LastSign = LastSign(height: int, round: int, step: int, signature: Option<Sig>, signBytes: Option<SignBytes>)

  const EMPTY := LastSign(0, 0, STEP_NONE, None, None)

  datatype Refusal =
    | HeightRegression | RoundRegression | StepRegression | NoSignBytes
    | UnexpectedExtension | KeyError | ConflictingData

  datatype Check = Fresh | SameHRS | Bad(why: Refusal) | MissingSignature

  function CheckHRS(lss: LastSign, height: int, round: int, step: int): Check {
    if lss.height > height then Bad(HeightRegression)
    else if lss.height == height && lss.round > round then Bad(RoundRegression)
    else if lss.height == height && lss.round == round && lss.step > step then Bad(StepRegression)
    else if lss.height == height && lss.round == round && lss.step == step then
      if lss.signBytes.None? then Bad(NoSignBytes)
      else if lss.signature.None? then MissingSignature
      else SameHRS
    else Fresh
  }

  /** Whether two canonical votes, or two canonical proposals, differ at most in their timestamps. */
  predicate OnlyTimestampDiffers(last: SignBytes, new': SignBytes)
    requires last.VoteBytes? == new'.VoteBytes?
  {
    last.(timestamp := new'.timestamp) == new'
  }

  /** Extensions are signed for precommits of a block, and refused anywhere else. */
  datatype Extension = NoExtension | Extension(bytes: seq<nat>)

  predicate ExtensionAllowed(b: SignBytes, ext: Extension) {
    ext.NoExtension? || ext.bytes == [] || (b.VoteBytes? && b.kind == Precommit && b.block.Some?)
  }

  /** The reply to a request: a signature with the timestamp to use, a refusal, or a panic. */
  datatype Reply = Signed(sig: Sig, timestamp: int) | Refused(why: Refusal) | Panicked

  /** A request to sign; the key itself may fail on the extension or on the message. */
  datatype Request = Request(bytes: SignBytes, ext: Extension, keyFailsExt: bool, keyFails: bool)

  predicate NeedsExtensionSig(b: SignBytes) {
    b.VoteBytes? && b.kind == Precommit && b.block.Some?
  }

  /** signVote and signProposal: the reply and the last sign state to be saved. */
  function Sign(lss: LastSign, q: Request): (LastSign, Reply) {
    var b := q.bytes;
    match CheckHRS(lss, b.height, b.round, StepOf(b))
    case Bad(why) => (lss, Refused(why))
    case MissingSignature => (lss, Panicked)
    case SameHRS =>
      if NeedsExtensionSig(b) && q.keyFailsExt then (lss, Refused(KeyError))
      else if !ExtensionAllowed(b, q.ext) then (lss, Refused(UnexpectedExtension))
      else
        var last := lss.signBytes.value;
        if b == last then (lss, Signed(lss.signature.value, b.timestamp))
        else if last.VoteBytes? != b.VoteBytes? then (lss, Panicked)
        else if OnlyTimestampDiffers(last, b) then (lss, Signed(lss.signature.value, last.timestamp))
        else (lss, Refused(ConflictingData))
    case Fresh =>
      if NeedsExtensionSig(b) && q.keyFailsExt then (lss, Refused(KeyError))
      else if !ExtensionAllowed(b, q.ext) then (lss, Refused(UnexpectedExtension))
      else if q.keyFails then (lss, Refused(KeyError))
      else (LastSign(b.height, b.round, StepOf(b), Some(Sig(b)), Some(b)), Signed(Sig(b), b.timestamp))
  }

  /** The message as it is returned, with the timestamp that was restored. */
  function Returned(q: Request, reply: Reply): SignBytes
    requires reply.Signed?
  {
    q.bytes.(timestamp := reply.timestamp)
  }

  // ----- the last sign state describes the last signature -----

  predicate Consistent(lss: LastSign) {
    || lss == EMPTY
    || (&& lss.signBytes.Some? && lss.signature == Some(Sig(lss.signBytes.value))
        && lss.height == lss.signBytes.value.height && lss.round == lss.signBytes.value.round
        && lss.step == StepOf(lss.signBytes.value))
  }

  /**
   * Exactly when a request is signed: it is for a later height/round/step than the last signature, or
   * for the same one and differs from it at most in the timestamp; and the key and extension are fine.
   */
  lemma SignedExactly(lss: LastSign, q: Request)
    requires Consistent(lss)
    ensures Sign(lss, q).1.Signed? <==>
              && (NeedsExtensionSig(q.bytes) ==> !q.keyFailsExt)
              && ExtensionAllowed(q.bytes, q.ext)
              && (|| (Less(lss.height, lss.round, lss.step, q.bytes.height, q.bytes.round, StepOf(q.bytes)) && !q.keyFails)
                  || (lss.signBytes.Some? && lss.signBytes.value.(timestamp := q.bytes.timestamp) == q.bytes))
    ensures !Sign(lss, q).1.Panicked?
    ensures Sign(lss, q).1 != Refused(NoSignBytes)
  {
  }

  /** What a signature is over: the message it is returned on, which is also what was saved. */
  lemma SignatureMatches(lss: LastSign, q: Request)
    requires Consistent(lss) && Sign(lss, q).1.Signed?
    ensures Sign(lss, q).1.sig == Sig(Returned(q, Sign(lss, q).1))
    ensures Sign(lss, q).0.signBytes == Some(Returned(q, Sign(lss, q).1))
    ensures Consistent(Sign(lss, q).0)
  {
  }

  /** After a crash between saving and handing out, the same request gets the same signature, at any later time. */
  lemma RetryReturnsSaved(lss: LastSign, q: Request, now: int)
    requires Consistent(lss) && Sign(lss, q).1.Signed?
    ensures var again := q.(bytes := q.bytes.(timestamp := now));
            Sign(Sign(lss, q).0, again) == (Sign(lss, q).0, Sign(lss, q).1)
  {
  }

  // ----- runs, with crashes -----

  /** The process's last sign state, the one on disk, every message saved, and every message handed out with its signature. */
  datatype State = State(mem: LastSign, disk: LastSign, saved: seq<SignBytes>, released: seq<(SignBytes, Sig)>)

  /**
   * A request may be answered, or the process may die before the new state is saved, or after it is
   * saved but before the signature is handed out. A restarted process loads the disk.
   */
  datatype Action = Answer(q: Request) | DieBeforeSave(q: Request) | DieAfterSave(q: Request) | Restart

  function SavedBy(lss: LastSign, next: LastSign): seq<SignBytes> {
    if lss != next && next.signBytes.Some? then [next.signBytes.value] else []
  }

  function Step(s: State, a: Action): State {
    match a
    case Answer(q) =>
      var (next, reply) := Sign(s.mem, q);
      State(next, if next == s.mem then s.disk else next, s.saved + SavedBy(s.mem, next),
            if reply.Signed? then s.released + [(Returned(q, reply), reply.sig)] else s.released)
    case DieBeforeSave(q) => s.(mem := s.disk)
    case DieAfterSave(q) =>
      var next := Sign(s.mem, q).0;
      var disk := if next == s.mem then s.disk else next;
      s.(mem := disk, disk := disk, saved := s.saved + SavedBy(s.mem, next))
    case Restart => s.(mem := s.disk)
  }

  ghost predicate IsRun(run: seq<State>, actions: seq<Action>) {
    && |run| == |actions| + 1
    && run[0] == State(EMPTY, EMPTY, [], [])
    && forall i :: 0 <= i < |actions| ==> run[i + 1] == Step(run[i], actions[i])
  }

  ghost predicate Inv(s: State) {
    && s.mem == s.disk && Consistent(s.mem)
    && (if s.saved == [] then s.mem == EMPTY else s.mem.signBytes == Some(s.saved[|s.saved| - 1]))
    && (forall i :: 0 <= i < |s.saved| ==> 
          Less(0, 0, STEP_NONE, s.saved[i].height, s.saved[i].round, StepOf(s.saved[i])))
    && (forall i, j :: 0 <= i < j < |s.saved| ==> Earlier(s.saved[i], s.saved[j]))
    && (forall i :: 0 <= i < |s.released| ==>
          s.released[i].1 == Sig(s.released[i].0) && s.released[i].0 in s.saved)
  }

  /** A message that is signed afresh comes after everything saved so far. */
  lemma FreshIsLater(s: State, q: Request)
    requires Inv(s) && Sign(s.mem, q).0 != s.mem
    ensures Sign(s.mem, q).0.signBytes == Some(q.bytes) && SavedBy(s.mem, Sign(s.mem, q).0) == [q.bytes]
    ensures Less(0, 0, STEP_NONE, q.bytes.height, q.bytes.round, StepOf(q.bytes))
    ensures forall i :: 0 <= i < |s.saved| ==> Earlier(s.saved[i], q.bytes)
    ensures Consistent(Sign(s.mem, q).0)
  {
  }

  lemma NothingReleased(s: State, q: Request)
    requires Inv(s)
    ensures Inv(Step(s, DieAfterSave(q)))
  {
    if Sign(s.mem, q).0 != s.mem {
      FreshIsLater(s, q);
      hide Sign, Consistent, Earlier, Less;
    }
  }

  lemma StepKeeps(s: State, a: Action)
    requires Inv(s)
    ensures Inv(Step(s, a))
  {
    if a.Answer? || a.DieAfterSave? {
      NothingReleased(s, a.q);
      if Sign(s.mem, a.q).1.Signed? {
        SignatureMatches(s.mem, a.q);
      }
      hide Sign, Consistent, Earlier, Less;
    }
  }

  lemma {:induction false} RunKeeps(run: seq<State>, actions: seq<Action>, i: nat)
    requires IsRun(run, actions) && i < |run|
    ensures Inv(run[i])
  {
    if i > 0 {
      RunKeeps(run, actions, i - 1);
      StepKeeps(run[i - 1], actions[i - 1]);
    }
  }

  /**
   * No double signing: all signatures handed out for one height, round and step, over any number of
   * crashes, are over identical bytes, and each is over the message it is returned on.
   */
  lemma NoDoubleSigning(run: seq<State>, actions: seq<Action>, i: nat, a: (SignBytes, Sig), b: (SignBytes, Sig))
    requires IsRun(run, actions) && i < |run| && a in run[i].released && b in run[i].released
    ensures a.1 == Sig(a.0) && b.1 == Sig(b.0)
    ensures SameStep(a.0, b.0) ==> a == b
  {
    RunKeeps(run, actions, i);
  }

  /** Fresh signatures are for ever later heights, rounds and steps, and every released message is one of them. */
  lemma FreshSigningsIncrease(run: seq<State>, actions: seq<Action>, i: nat)
    requires IsRun(run, actions) && i < |run|
    ensures forall j, k :: 0 <= j < k < |run[i].saved| ==> Earlier(run[i].saved[j], run[i].saved[k])
    ensures forall j :: 0 <= j < |run[i].released| ==> run[i].released[j].0 in run[i].saved
  {
    RunKeeps(run, actions, i);
  }

  // ----- the same in place -----

  /** A vote or a proposal that is being signed: the signer writes into it. */
  class Message {
    const bytes: SignBytes
    const ext: Extension
    var timestamp: int
    var signature: Option<Sig>
    var extensionSigned: bool

    constructor (bytes: SignBytes, ext: Extension)
      ensures this.bytes == bytes && this.ext == ext
      ensures timestamp == bytes.timestamp && signature == None && !extensionSigned
    {
      this.bytes, this.ext := bytes, ext;
      timestamp, signature, extensionSigned := bytes.timestamp, None, false;
    }
  }

  datatype Outcome = Ok | Err(why: Refusal) | Panic

  class FilePV {
    var height: int
    var round: int
    var step: int
    var signature: Option<Sig>
    var signBytes: Option<SignBytes>
    var disk: LastSign

    function Snap(): LastSign
      reads this
    {
      LastSign(height, round, step, signature, signBytes)
    }

    /** The process is up to date with its file. */
    predicate Valid()
      reads this
    {
      Snap() == disk
    }

    /** LoadFilePV takes the file as it is. */
    constructor (disk: LastSign)
      ensures Valid() && this.disk == disk
    {
      this.disk := disk;
      height, round, step, signature, signBytes := disk.height, disk.round, disk.step, disk.signature, disk.signBytes;
    }

    method SaveSigned(h: int, r: int, st: int, b: SignBytes, sig: Sig)
      modifies this
      ensures Snap() == disk == LastSign(h, r, st, Some(sig), Some(b))
    {
      height := h;
      round := r;
      step := st;
      signature := Some(sig);
      signBytes := Some(b);
      disk := Snap();
    }

    /**
     * signVote and signProposal. If the file describes a signature, as it does from the first fresh
     * signature on, then a signed message carries a signature over exactly what it then says, and that is
     * what the file holds. A message that is not signed gets no signature.
     */
    method SignMessage(m: Message, keyFailsExt: bool, keyFails: bool) returns (out: Outcome)
      requires Valid() && m.timestamp == m.bytes.timestamp && m.signature == None
      modifies this, m
      ensures Valid()
      ensures var q := Request(m.bytes, m.ext, keyFailsExt, keyFails);
              && Snap() == Sign(old(Snap()), q).0
              && match Sign(old(Snap()), q).1
                 case Signed(sig, timestamp) =>
                   && out == Ok && m.signature == Some(sig) && m.timestamp == timestamp
                   && m.extensionSigned == NeedsExtensionSig(m.bytes)
                 case Refused(why) =>
                   && out == Err(why) && m.signature == None && m.timestamp == old(m.timestamp)
                   && m.extensionSigned == if why == ConflictingData then NeedsExtensionSig(m.bytes)
                                           else old(m.extensionSigned)
                 case Panicked => out == Panic
      ensures old(Consistent(disk)) || disk != old(disk) ==> Consistent(disk)
      ensures old(Consistent(disk)) ==> out != Panic && out != Err(NoSignBytes)
      ensures old(Consistent(disk)) && out == Ok ==>
                && m.signature == Some(Sig(m.bytes.(timestamp := m.timestamp)))
                && disk.signBytes == Some(m.bytes.(timestamp := m.timestamp))
    {
      var b := m.bytes;
      ghost var q := Request(b, m.ext, keyFailsExt, keyFails);
      if Consistent(disk) {
        SignedExactly(Snap(), q);
        if Sign(Snap(), q).1.Signed? { SignatureMatches(Snap(), q); }
      }
      var check := CheckHRS(Snap(), b.height, b.round, StepOf(b));
      if check.Bad? { return Err(check.why); }
      if check.MissingSignature? { return Panic; }
      var extSig := false;
      if NeedsExtensionSig(b) {
        if keyFailsExt { return Err(KeyError); }
        extSig := true;
      } else if m.ext.Extension? && |m.ext.bytes| > 0 {
        return Err(UnexpectedExtension);
      }
      out := Ok;
      if check.SameHRS? {
        if b == signBytes.value {
          m.signature := signature;
        } else if signBytes.value.VoteBytes? != b.VoteBytes? {
          return Panic;
        } else if OnlyTimestampDiffers(signBytes.value, b) {
          m.timestamp := signBytes.value.timestamp;
          m.signature := signature;
        } else {
          out := Err(ConflictingData);
        }
        m.extensionSigned := extSig;
        return;
      }
      if keyFails { return Err(KeyError); }
      SaveSigned(b.height, b.round, StepOf(b), b, Sig(b));
      m.signature := Some(Sig(b));
      m.extensionSigned := extSig;
    }
  }
}
