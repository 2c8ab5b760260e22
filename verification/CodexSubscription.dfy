/** The subscription broker's protocol over two Secrets and the native refresh.

    A broker reads the authority Secret, claims a refresh intent on it by compare and
    swap, calls the native tool with the refresh credential, commits the rotated
    credential, and publishes the access credential in the output Secret. Every await is
    one step here; any number of brokers take steps in any order, and any of them may be
    lost at any point. A digest is modelled by the text it digests. */
module CodexSubscription {
  import opened VersionedStore

  const LEASE_MS := 60_000
  const RENEW_EARLY_MS := 300_000
  const USABLE_MS := 60_000

  /** The native auth file: its refresh credential and everything else in it. */
  datatype Native = Native(token: nat, rest: nat)
  datatype AuthFile = Unparsable(raw: nat) | Parsed(native: Native)
  datatype Access = Garbage(raw: nat) | Access(id: nat, expiresAt: int)
  /** One profile over the authority Secret; `output` names the Secret it publishes in. */
  datatype Profile = Profile(owner: nat, output: nat)
  datatype Binding = Binding(profile: Profile, uid: nat)

  datatype Notes = Notes(owner: Option<nat>, intent: Option<nat>, lease: Option<nat>, leaseUntil: Option<int>,
                         binding: Option<Binding>, digest: Option<AuthFile>)
  datatype Authority = Authority(uid: nat, auth: Option<AuthFile>, access: Option<Access>, notes: Notes)

  datatype Projection = Missing | Cleared | Holds(access: Access)
  datatype Output = Output(owner: Option<nat>, binding: Option<Binding>, data: Projection)

  datatype Outcome =
    | BootstrapMissing | AuthorityAlreadyOwned | OutputAlreadyOwned | BootstrapInvalid
    | RefreshInProgress | ReauthenticationRequired | OutputConflict | LeaseConflict
    | CommitUncertain | AccessExpired | PublishConflict | AccessCurrent | AccessRenewed
    | AuthorityUnavailable

  /** What one pass over a profile has read before it claims. */
  datatype Attempt = Attempt(profile: Profile, authority: Versioned<Authority>, output: Option<Versioned<Output>>,
                             native: Native)

  /** One publication: the authority version it is fenced to. `cached` is the pass to
      resume when publishing a cached credential throws. */
  datatype Publication = Publication(profile: Profile, authority: Versioned<Authority>, access: Access,
                                     binding: Binding, cached: Option<Attempt>)

  datatype Pc =
    | Idle(last: Option<Outcome>)
    | ReadingAuthority(profile: Profile)
    | ReadingOutput(profile: Profile, authority: Versioned<Authority>)
    | Clearing(attempt: Attempt, thenClaim: bool)
    | Claiming(attempt: Attempt, lease: nat, until: int)
    | Calling(attempt: Attempt, lease: nat)
    | Waiting(attempt: Attempt, lease: nat)
    | ReadingLatest(attempt: Attempt, lease: nat, auth: AuthFile, access: Access)
    | Committing(attempt: Attempt, auth: AuthFile, access: Access, latest: Versioned<Authority>)
    | ReadingDurable(profile: Profile, binding: Binding, access: Access)
    | PublishReading(publication: Publication)
    | PublishRereading(publication: Publication, current: Option<Versioned<Output>>, read: nat)
    | PublishWriting(publication: Publication, current: Option<Versioned<Output>>, commit: nat, read: nat, proof: nat)

  /** What happened, in order. A write says whether it was a create, and where the log stood when its
      output was read and when its authority was proved unchanged; `commit` is the position of the
      commit its credential was taken from. An install says which intent its notes hold. */
  datatype Event =
    | Claimed(token: nat)
    | Called(token: nat)
    | Committed(auth: AuthFile, binding: Binding, access: Access)
    | Wrote(output: nat, access: Access, binding: Binding, commit: nat, created: bool, read: nat, proof: nat)
    | Installed(auth: AuthFile, intent: Option<nat>)
    | Deleted(output: nat)

  /** `issued`, `files` and `claimed` record history: every credential and auth file that
      ever existed, and every credential some broker claimed. */
  datatype State = State(now: int, next: nat, leases: nat,
                         authority: Option<Versioned<Authority>>, outputs: map<nat, Versioned<Output>>,
                         brokers: map<nat, Pc>, log: seq<Event>,
                         issued: set<nat>, files: set<AuthFile>, claimed: set<nat>)

  datatype Reply = NativeFailed | Refreshed(auth: AuthFile, access: Access)

  datatype Action =
    | Start(b: nat, profile: Profile)
    | Step(b: nat)
    | Answer(b: nat, reply: Reply)
    | Throw(b: nat, applied: bool)   // a store request fails, before or after it took effect
    | Crash(b: nat)
    | Tick(ms: nat)
    | Install(auth: AuthFile, keepNotes: bool)   // the operator supplies a new login
    | RemoveAuthority
    | RemoveOutput(output: nat)

  const NO_NOTES := Notes(None, None, None, None, None, None)

  function Init(now: int): State {
    State(now, 1, 0, None, map[], map[], [], {}, {}, {})
  }

  function At(s: State, b: nat, pc: Pc): State {
    s.(brokers := s.brokers[b := pc])
  }

  function Done(s: State, b: nat, outcome: Outcome): State {
    At(s, b, Idle(Some(outcome)))
  }

  function BindingOf(profile: Profile, authority: Authority): Binding {
    Binding(profile, authority.uid)
  }

  function Read(s: State, output: nat): Option<Versioned<Output>> {
    if output in s.outputs then Some(s.outputs[output]) else None
  }

  /** invalidateOutput has something to write. */
  predicate NeedsClearing(output: Option<Versioned<Output>>) {
    output.Some? && output.value.value.data != Cleared
  }

  /** The part of `renew` after the cached credential proved unusable. */
  function Renew(s: State, b: nat, a: Attempt): State {
    var authority := a.authority.value;
    if (a.output.None? || a.output.value.value.binding != Some(BindingOf(a.profile, authority)) ||
        authority.notes.digest != authority.auth) && NeedsClearing(a.output) then
      At(s, b, Clearing(a, true))
    else
      StartClaim(s, b, a)
  }

  function StartClaim(s: State, b: nat, a: Attempt): State {
    At(s, b, Claiming(a, s.leases, s.now + LEASE_MS)).(leases := s.leases + 1)
  }

  function AuthorityRead(s: State, b: nat, profile: Profile): State {
    if s.authority.None? || s.authority.value.value.auth.None? then Done(s, b, BootstrapMissing)
    else
      var notes := s.authority.value.value.notes;
      if notes.owner.Some? && notes.owner != Some(profile.owner) then Done(s, b, AuthorityAlreadyOwned)
      else At(s, b, ReadingOutput(profile, s.authority.value))
  }

  predicate CachedUsable(authority: Authority, binding: Binding, now: int) {
    && authority.access.Some?
    && authority.notes.binding == Some(binding)
    && authority.notes.digest == authority.auth
    && authority.access.value.Access?
    && authority.access.value.expiresAt > now + RENEW_EARLY_MS
  }

  function OutputRead(s: State, b: nat, profile: Profile, snapshot: Versioned<Authority>): State {
    var authority := snapshot.value;
    var output := Read(s, profile.output);
    if output.Some? && output.value.value.owner != Some(profile.owner) then Done(s, b, OutputAlreadyOwned)
    else if authority.auth.None? || authority.auth.value.Unparsable? then Done(s, b, BootstrapInvalid)
    else
      var a := Attempt(profile, snapshot, output, authority.auth.value.native);
      if authority.notes.intent == Some(a.native.token) then
        if authority.notes.leaseUntil.Some? && authority.notes.leaseUntil.value > s.now then
          Done(s, b, RefreshInProgress)
        else if NeedsClearing(output) then At(s, b, Clearing(a, false))
        else Done(s, b, ReauthenticationRequired)
      else if CachedUsable(authority, BindingOf(profile, authority), s.now) then
        StartPublish(s, b, Publication(profile, snapshot, authority.access.value, BindingOf(profile, authority), Some(a)))
      else Renew(s, b, a)
  }

  function Write(s: State, output: nat, row: Versioned<Output>): State {
    s.(outputs := s.outputs[output := row], next := s.next + 1)
  }

  function Clear(s: State, b: nat, a: Attempt, thenClaim: bool): State
    requires a.output.Some?
  {
    var cleared := Swap(Read(s, a.profile.output), VersionOf(a.output), a.output.value.value.(data := Cleared), s.next);
    var t := if cleared.Some? then Write(s, a.profile.output, cleared.value) else s;
    if !thenClaim then Done(t, b, ReauthenticationRequired)
    else if cleared.None? then Done(t, b, OutputConflict)
    else StartClaim(t, b, a)
  }

  function ClaimedAuthority(a: Attempt, lease: nat, until: int): Authority {
    a.authority.value.(notes := a.authority.value.notes.(
      owner := Some(a.profile.owner), intent := Some(a.native.token), lease := Some(lease), leaseUntil := Some(until)))
  }

  function Claim(s: State, b: nat, a: Attempt, lease: nat, until: int): State {
    var swapped := Swap(s.authority, Some(a.authority.version), ClaimedAuthority(a, lease, until), s.next);
    if swapped.None? then Done(s, b, LeaseConflict)
    else At(s, b, Calling(a, lease)).(authority := swapped, next := s.next + 1, claimed := s.claimed + {a.native.token},
                                      log := s.log + [Claimed(a.native.token)])
  }

  function Call(s: State, b: nat, a: Attempt, lease: nat): State {
    At(s, b, Waiting(a, lease)).(log := s.log + [Called(a.native.token)])
  }

  function Answered(s: State, b: nat, a: Attempt, lease: nat, reply: Reply): State {
    match reply
    case NativeFailed => Done(s, b, ReauthenticationRequired)
    case Refreshed(auth, access) =>
      At(s, b, ReadingLatest(a, lease, auth, access)).(
        files := s.files + {auth},
        issued := s.issued + if auth.Parsed? then {auth.native.token} else {})
  }

  function LatestRead(s: State, b: nat, a: Attempt, lease: nat, auth: AuthFile, access: Access): State {
    if s.authority.None? || s.authority.value.value.notes.lease != Some(lease) ||
       s.authority.value.value.auth != Some(Parsed(a.native)) ||
       (s.authority.value.value.notes.leaseUntil.Some? && s.authority.value.value.notes.leaseUntil.value <= s.now)
    then Done(s, b, CommitUncertain)
    else if access.Garbage? then Done(s, b, AuthorityUnavailable)
    else if access.expiresAt <= s.now + USABLE_MS then Done(s, b, AccessExpired)
    else At(s, b, Committing(a, auth, access, s.authority.value))
  }

  function CommittedAuthority(latest: Authority, auth: AuthFile, access: Access, binding: Binding): Authority {
    latest.(auth := Some(auth), access := Some(access), notes := latest.notes.(
      binding := Some(binding), digest := Some(auth), intent := None, lease := None, leaseUntil := None))
  }

  function Commit(s: State, b: nat, a: Attempt, auth: AuthFile, access: Access, latest: Versioned<Authority>): State {
    var binding := BindingOf(a.profile, a.authority.value);
    var swapped := Swap(s.authority, Some(latest.version), CommittedAuthority(latest.value, auth, access, binding), s.next);
    if swapped.None? then Done(s, b, CommitUncertain)
    else At(s, b, ReadingDurable(a.profile, binding, access)).(
      authority := swapped, next := s.next + 1, log := s.log + [Committed(auth, binding, access)])
  }

  function DurableRead(s: State, b: nat, profile: Profile, binding: Binding, access: Access): State {
    if s.authority.None? || !Publishable(s.authority.value.value, binding, access) then Done(s, b, PublishConflict)
    else At(s, b, PublishReading(Publication(profile, s.authority.value, access, binding, None)))
  }

  /** The authority still holds this credential, committed under this binding, unfenced. */
  predicate Publishable(authority: Authority, binding: Binding, access: Access) {
    && authority.notes.binding == Some(binding)
    && authority.access == Some(access)
    && authority.auth.Some?
    && authority.notes.digest == authority.auth
    && authority.notes.intent.None?
  }

  function StartPublish(s: State, b: nat, p: Publication): State {
    if Publishable(p.authority.value, p.binding, p.access) then At(s, b, PublishReading(p))
    else Done(s, b, PublishConflict)
  }

  function Published(s: State, b: nat, p: Publication): State {
    Done(s, b, if p.cached.Some? then AccessCurrent else AccessRenewed)
  }

  function PublishRead(s: State, b: nat, p: Publication): State {
    var current := Read(s, p.profile.output);
    if current.Some? && current.value.value.owner != Some(p.profile.owner) then Done(s, b, PublishConflict)
    else if current.Some? && current.value.value.data == Holds(p.access) &&
            current.value.value.binding == Some(p.binding) then Published(s, b, p)
    else At(s, b, PublishRereading(p, current, |s.log|))
  }

  function PublishReread(s: State, b: nat, p: Publication, current: Option<Versioned<Output>>, read: nat): State {
    if VersionOf(s.authority) != Some(p.authority.version) then Done(s, b, PublishConflict)
    else At(s, b, PublishWriting(p, current, LastCommit(s.log), read, |s.log|))
  }

  function PublishWrite(s: State, b: nat, p: Publication, current: Option<Versioned<Output>>, commit: nat, read: nat, proof: nat): State {
    var swapped := Swap(Read(s, p.profile.output), VersionOf(current),
                        Output(Some(p.profile.owner), Some(p.binding), Holds(p.access)), s.next);
    if swapped.None? then Done(s, b, PublishConflict)
    else
      var wrote := Wrote(p.profile.output, p.access, p.binding, commit, current.None?, read, proof);
      Published(Write(s, p.profile.output, swapped.value).(log := s.log + [wrote]), b, p)
  }

  function LastCommit(log: seq<Event>): (i: nat)
    ensures (exists k :: 0 <= k < |log| && log[k].Committed?) ==>
              i < |log| && log[i].Committed? && forall k :: i < k < |log| ==> !log[k].Committed?
  {
    if log == [] then 0
    else if log[|log| - 1].Committed? then |log| - 1
    else LastCommit(log[..|log| - 1])
  }

  /** The next await of broker `b` completes. */
  function Advance(s: State, b: nat): State
    requires b in s.brokers
  {
    match s.brokers[b]
    case Idle(_) => s
    case ReadingAuthority(profile) => AuthorityRead(s, b, profile)
    case ReadingOutput(profile, authority) => OutputRead(s, b, profile, authority)
    case Clearing(a, thenClaim) => if a.output.Some? then Clear(s, b, a, thenClaim) else s
    case Claiming(a, lease, until) => Claim(s, b, a, lease, until)
    case Calling(a, lease) => Call(s, b, a, lease)
    case Waiting(_, _) => s
    case ReadingLatest(a, lease, auth, access) => LatestRead(s, b, a, lease, auth, access)
    case Committing(a, auth, access, latest) => Commit(s, b, a, auth, access, latest)
    case ReadingDurable(profile, binding, access) => DurableRead(s, b, profile, binding, access)
    case PublishReading(p) => PublishRead(s, b, p)
    case PublishRereading(p, current, read) => PublishReread(s, b, p, current, read)
    case PublishWriting(p, current, commit, read, proof) => PublishWrite(s, b, p, current, commit, read, proof)
  }

  /** A store request rejects. The pass ends, except that publishing a cached credential
      swallows the error and goes on to renew. */
  function Thrown(s: State, b: nat): State
    requires b in s.brokers
  {
    var pc := s.brokers[b];
    if (pc.PublishReading? || pc.PublishRereading? || pc.PublishWriting?) && pc.publication.cached.Some? then
      Renew(s, b, pc.publication.cached.value)
    else if pc.Idle? || pc.Waiting? then s
    else Done(s, b, AuthorityUnavailable)
  }

  /** The request took effect and its acknowledgement was lost. */
  function ThrownApplied(s: State, b: nat): State
    requires b in s.brokers
  {
    var pc := s.brokers[b];
    var t := Advance(s, b);
    if pc.PublishWriting? && pc.publication.cached.Some? then Renew(t, b, pc.publication.cached.value)
    else if pc.Clearing? || pc.Claiming? || pc.Committing? || pc.PublishWriting? then Done(t, b, AuthorityUnavailable)
    else s
  }

  function InstallLogin(s: State, auth: AuthFile, keepNotes: bool): State {
    var (uid, access, notes) :=
      if keepNotes && s.authority.Some?
      then (s.authority.value.value.uid, s.authority.value.value.access, s.authority.value.value.notes)
      else (s.next, None, NO_NOTES);
    s.(authority := Some(Versioned(s.next, Authority(uid, Some(auth), access, notes))), next := s.next + 1,
       files := s.files + {auth}, issued := s.issued + if auth.Parsed? then {auth.native.token} else {},
       log := s.log + [Installed(auth, notes.intent)])
  }

  function RemovedOutput(s: State, output: nat): State {
    if output in s.outputs then s.(outputs := s.outputs - {output}, log := s.log + [Deleted(output)]) else s
  }

  function Apply(s: State, action: Action): State {
    match action
    case Start(b, profile) =>
      if b !in s.brokers || s.brokers[b].Idle? then At(s, b, ReadingAuthority(profile)) else s
    case Step(b) => if b in s.brokers then Advance(s, b) else s
    case Answer(b, reply) =>
      if b in s.brokers && s.brokers[b].Waiting?
      then Answered(s, b, s.brokers[b].attempt, s.brokers[b].lease, reply) else s
    case Throw(b, applied) =>
      if b !in s.brokers then s else if applied then ThrownApplied(s, b) else Thrown(s, b)
    case Crash(b) => s.(brokers := s.brokers - {b})
    case Tick(ms) => s.(now := s.now + ms)
    case Install(auth, keepNotes) => InstallLogin(s, auth, keepNotes)
    case RemoveAuthority => s.(authority := None)
    case RemoveOutput(output) => RemovedOutput(s, output)
  }

  function Run(s: State, actions: seq<Action>): State
    decreases |actions|
  {
    if actions == [] then s else Run(Apply(s, actions[0]), actions[1..])
  }

  /** The environment's side of the contract: the operator installs only logins never seen
      before, and the provider answers with the credential it was shown or a new one. */
  predicate Fair(s: State, action: Action) {
    match action
    case Install(auth, _) => auth !in s.files && (auth.Parsed? ==> auth.native.token !in s.issued)
    case Answer(b, Refreshed(auth, _)) =>
      b in s.brokers && s.brokers[b].Waiting? && auth.Parsed? ==>
        auth.native.token == s.brokers[b].attempt.native.token || auth.native.token !in s.issued
    case _ => true
  }

  predicate FairRun(s: State, actions: seq<Action>)
    decreases |actions|
  {
    actions != [] ==> Fair(s, actions[0]) && FairRun(Apply(s, actions[0]), actions[1..])
  }
}
