/** Two-step action confirmation: propose, confirm once, consume once. */
module ActionConfirmation {
  import opened Collections
  import opened Wrappers
  import opened PyText

  datatype ActionKind = CreateReminder | SendChannelMessage | ImportEmoji | Unsupported

  datatype ActionPayload =
    /** `remindAt` is None for a time without a UTC offset. */
    | Reminder(reminderText: string, remindAt: Option<int>, timezoneName: string, localText: string, assumedTime: bool)
    | ChannelMessage(targetChannel: int, messageText: string)
    | EmojiImport(sourceId: int, name: string, animated: bool)

  datatype Proposal = Proposal(
    id: string, kind: ActionKind, payload: ActionPayload,
    guild: int, channel: int, user: int, sourceMessage: Option<int>,
    createdAt: int, expiresAt: int)

  datatype Capability = Capability(token: string, proposal: Proposal, confirmedAt: int, expiresAt: int)

  datatype ConfirmationError =
    InvalidProposal | TooManyPending | MissingOrExpired | InvalidCapability | WrongUser | WrongContext

  datatype Config = Config(proposalTtl: int, capabilityTtl: int, maxPending: int) {
    predicate Valid() { proposalTtl > 0 && capabilityTtl > 0 && maxPending >= 1 }
  }

  datatype State = State(proposals: map<string, Proposal>, capabilities: map<string, Capability>)

  /** One call on the store, with the clock reading and the new token it draws. */
  datatype Request =
    | Propose(now: int, kind: ActionKind, payload: ActionPayload, guild: int, channel: int, user: int,
              sourceMessage: Option<int>, drawn: string)
    | Confirm(now: int, rawId: string, guild: int, channel: int, user: int, drawn: string)
    | Consume(now: int, token: string, guild: int, channel: int, user: int)
    | PendingCount(now: int)

  datatype Response =
    | Proposed(proposal: Proposal)
    | Confirmed(capability: Capability)
    | Consumed(action: Proposal)
    | Counted(count: nat)
    | Rejected(error: ConfirmationError)

  // ---------------------------------------------------------------------
  // One call
  // ---------------------------------------------------------------------

  function Prune(s: State, now: int): State {
    State(map k | k in s.proposals && s.proposals[k].expiresAt > now :: s.proposals[k],
          map k | k in s.capabilities && s.capabilities[k].expiresAt > now :: s.capabilities[k])
  }

  predicate EmojiNameOk(name: string) {
    && 2 <= |name| <= 32
    && forall i :: 0 <= i < |name| ==>
      'a' <= name[i] <= 'z' || 'A' <= name[i] <= 'Z' || '0' <= name[i] <= '9' || name[i] == '_'
  }

  predicate ValidRequest(r: Request)
    requires r.Propose?
  {
    && r.guild > 0 && r.channel > 0 && r.user > 0
    && (r.sourceMessage.Some? ==> r.sourceMessage.value > 0)
    && match r.kind
       case CreateReminder =>
         && r.payload.Reminder?
         && !Blank(r.payload.reminderText) && !Blank(r.payload.timezoneName)
         && r.payload.remindAt.Some? && r.payload.remindAt.value > r.now
       case SendChannelMessage =>
         r.payload.ChannelMessage? && r.payload.targetChannel > 0 && !Blank(r.payload.messageText)
       case ImportEmoji =>
         r.payload.EmojiImport? && 0 < r.payload.sourceId < 0x1_0000_0000_0000_0000 && EmojiNameOk(r.payload.name)
       case Unsupported => false
  }

  /** The pending proposals of one (guild, user) principal. */
  function PendingOf(s: State, guild: int, user: int): set<string> {
    set k | k in s.proposals && s.proposals[k].guild == guild && s.proposals[k].user == user
  }

  function IdentityError(p: Proposal, guild: int, channel: int, user: int): Option<ConfirmationError> {
    if p.user != user then Some(WrongUser)
    else if p.guild != guild || p.channel != channel then Some(WrongContext)
    else None
  }

  function AfterPropose(cfg: Config, s: State, r: Request): (State, Response)
    requires r.Propose?
  {
    if !ValidRequest(r) then (s, Rejected(InvalidProposal))
    else if |PendingOf(s, r.guild, r.user)| >= cfg.maxPending then (s, Rejected(TooManyPending))
    else
      var p := Proposal(r.drawn, r.kind, r.payload, r.guild, r.channel, r.user, r.sourceMessage, r.now,
                        r.now + cfg.proposalTtl);
      (s.(proposals := s.proposals[r.drawn := p]), Proposed(p))
  }

  function AfterConfirm(cfg: Config, s: State, r: Request): (State, Response)
    requires r.Confirm?
  {
    var id := Strip(r.rawId);
    if id !in s.proposals then (s, Rejected(MissingOrExpired))
    else
      var p := s.proposals[id];
      var mismatch := IdentityError(p, r.guild, r.channel, r.user);
      if mismatch.Some? then (s, Rejected(mismatch.value))
      else
        var c := Capability(r.drawn, p, r.now, r.now + cfg.capabilityTtl);
        (State(s.proposals - {p.id}, s.capabilities[r.drawn := c]), Confirmed(c))
  }

  function AfterConsume(s: State, r: Request): (State, Response)
    requires r.Consume?
  {
    if r.token !in s.capabilities then (s, Rejected(InvalidCapability))
    else
      var c := s.capabilities[r.token];
      var mismatch := IdentityError(c.proposal, r.guild, r.channel, r.user);
      if mismatch.Some? then (s, Rejected(mismatch.value))
      else (s.(capabilities := s.capabilities - {r.token}), Consumed(c.proposal))
  }

  /** Every call prunes at its own clock reading first. */
  function Step(cfg: Config, before: State, r: Request): (State, Response) {
    var s := Prune(before, r.now);
    match r
    case Propose(_, _, _, _, _, _, _, _) => AfterPropose(cfg, s, r)
    case Confirm(_, _, _, _, _, _) => AfterConfirm(cfg, s, r)
    case Consume(_, _, _, _, _) => AfterConsume(s, r)
    case PendingCount(_) => (s, Counted(|s.proposals|))
  }

  /** The store object; each method is one call, holding the lock throughout. */
  class ActionConfirmationStore {
    const cfg: Config
    var proposals: map<string, Proposal>
    var capabilities: map<string, Capability>

    function Contents(): State
      reads this
    {
      State(proposals, capabilities)
    }

    constructor (cfg: Config)
      requires cfg.Valid()
      ensures this.cfg == cfg && Contents() == State(map[], map[])
    {
      this.cfg := cfg;
      proposals, capabilities := map[], map[];
    }

    method PruneAt(now: int)
      modifies this
      ensures Contents() == Prune(old(Contents()), now)
    {
      proposals := map k | k in proposals && proposals[k].expiresAt > now :: proposals[k];
      capabilities := map k | k in capabilities && capabilities[k].expiresAt > now :: capabilities[k];
    }

    method Propose(r: Request) returns (result: Result<Proposal, ConfirmationError>)
      requires r.Propose?
      modifies this
      ensures Contents() == Step(cfg, old(Contents()), r).0
      ensures Step(cfg, old(Contents()), r).1 == if result.Ok? then Proposed(result.value) else Rejected(result.error)
    {
      PruneAt(r.now);
      if !ValidRequest(r) {
        return Err(InvalidProposal);
      }
      var pending := set k | k in proposals && proposals[k].guild == r.guild && proposals[k].user == r.user;
      if |pending| >= cfg.maxPending {
        return Err(TooManyPending);
      }
      var proposal := Proposal(r.drawn, r.kind, r.payload, r.guild, r.channel, r.user, r.sourceMessage,
                               r.now, r.now + cfg.proposalTtl);
      proposals := proposals[proposal.id := proposal];
      return Ok(proposal);
    }

    method Confirm(r: Request) returns (result: Result<Capability, ConfirmationError>)
      requires r.Confirm?
      modifies this
      ensures Contents() == Step(cfg, old(Contents()), r).0
      ensures Step(cfg, old(Contents()), r).1 == if result.Ok? then Confirmed(result.value) else Rejected(result.error)
    {
      PruneAt(r.now);
      var id := Strip(r.rawId);
      if id !in proposals {
        return Err(MissingOrExpired);
      }
      var proposal := proposals[id];
      var mismatch := IdentityError(proposal, r.guild, r.channel, r.user);
      if mismatch.Some? {
        return Err(mismatch.value);
      }
      proposals := proposals - {proposal.id};
      var capability := Capability(r.drawn, proposal, r.now, r.now + cfg.capabilityTtl);
      capabilities := capabilities[capability.token := capability];
      return Ok(capability);
    }

    method Consume(r: Request) returns (result: Result<Proposal, ConfirmationError>)
      requires r.Consume?
      modifies this
      ensures Contents() == Step(cfg, old(Contents()), r).0
      ensures Step(cfg, old(Contents()), r).1 == if result.Ok? then Consumed(result.value) else Rejected(result.error)
    {
      PruneAt(r.now);
      if r.token !in capabilities {
        return Err(InvalidCapability);
      }
      var capability := capabilities[r.token];
      var mismatch := IdentityError(capability.proposal, r.guild, r.channel, r.user);
      if mismatch.Some? {
        return Err(mismatch.value);
      }
      capabilities := capabilities - {r.token};
      return Ok(capability.proposal);
    }
  }

  // ---------------------------------------------------------------------
  // One call, seen from one entry
  // ---------------------------------------------------------------------

  predicate Draws(r: Request) { r.Propose? || r.Confirm? }

  /** What one call does to a proposal id it did not draw. */
  lemma StepOnProposal(cfg: Config, s: State, r: Request, id: string)
    requires Draws(r) ==> r.drawn != id
    requires forall k :: k in s.proposals ==> s.proposals[k].id == k
    ensures var (t, response) := Step(cfg, s, r);
            && (id in t.proposals <==>
                  && id in s.proposals && s.proposals[id].expiresAt > r.now
                  && !(response.Confirmed? && response.capability.proposal.id == id))
            && (id in t.proposals ==> t.proposals[id] == s.proposals[id])
  {
  }

  lemma StepOnCapability(cfg: Config, s: State, r: Request, token: string)
    requires Draws(r) ==> r.drawn != token
    ensures var (t, response) := Step(cfg, s, r);
            && (token in t.capabilities <==>
                  && token in s.capabilities && s.capabilities[token].expiresAt > r.now
                  && !(response.Consumed? && r.token == token))
            && (token in t.capabilities ==> t.capabilities[token] == s.capabilities[token])
  {
  }

  /** An entry a call added carries the token it drew. */
  lemma StepAdds(cfg: Config, s: State, r: Request)
    ensures var (t, response) := Step(cfg, s, r);
            && (forall id :: id in t.proposals ==>
                  || (id in s.proposals && t.proposals[id] == s.proposals[id])
                  || (response == Proposed(t.proposals[id]) && r.drawn == id == t.proposals[id].id))
            && (forall token :: token in t.capabilities ==>
                  || (token in s.capabilities && t.capabilities[token] == s.capabilities[token])
                  || (response == Confirmed(t.capabilities[token]) && r.drawn == token))
  {
  }

  /** What each successful response says about its request. */
  lemma StepResponses(cfg: Config, s: State, r: Request)
    ensures var (t, response) := Step(cfg, s, r);
            && (response.Proposed? ==>
                  && r.Propose?
                  && response.proposal == Proposal(r.drawn, r.kind, r.payload, r.guild, r.channel, r.user,
                                                   r.sourceMessage, r.now, r.now + cfg.proposalTtl)
                  && r.drawn in t.proposals && t.proposals[r.drawn] == response.proposal)
            && (response.Confirmed? ==>
                  && r.Confirm?
                  && var p := response.capability.proposal;
                     && response.capability == Capability(r.drawn, p, r.now, r.now + cfg.capabilityTtl)
                     && r.drawn in t.capabilities && t.capabilities[r.drawn] == response.capability)
            && (response.Consumed? ==> r.Consume?)
  {
  }

  predicate Matches(r: Request, p: Proposal)
    requires r.Confirm? || r.Consume?
  {
    r.user == p.user && r.guild == p.guild && r.channel == p.channel
  }

  /** Confirming succeeds exactly on a stored, unexpired proposal of the same principal and channel. */
  lemma StepConfirms(cfg: Config, s: State, r: Request)
    requires r.Confirm?
    ensures var response := Step(cfg, s, r).1;
            var id := Strip(r.rawId);
            && (response.Confirmed? <==>
                id in s.proposals && s.proposals[id].expiresAt > r.now && Matches(r, s.proposals[id]))
            && (response.Confirmed? ==> response.capability.proposal == s.proposals[id])
  {
  }

  lemma StepConsumes(cfg: Config, s: State, r: Request)
    requires r.Consume?
    ensures var response := Step(cfg, s, r).1;
            && (response.Consumed? <==>
                  && r.token in s.capabilities && s.capabilities[r.token].expiresAt > r.now
                  && Matches(r, s.capabilities[r.token].proposal))
            && (response.Consumed? ==> response.action == s.capabilities[r.token].proposal)
  {
  }

  /** A rejected call drops expired entries only; an accepted one drops at most the entry it used. */
  lemma CallsKeepUnexpiredEntries(cfg: Config, s: State, r: Request)
    requires Draws(r) ==> r.drawn !in s.proposals && r.drawn !in s.capabilities
    requires forall id :: id in s.proposals ==> s.proposals[id].id == id
    ensures var (t, response) := Step(cfg, s, r);
            && (forall id :: id in s.proposals && s.proposals[id].expiresAt > r.now
                  && !(response.Confirmed? && id == response.capability.proposal.id)
                  ==> id in t.proposals && t.proposals[id] == s.proposals[id])
            && (forall token :: token in s.capabilities && s.capabilities[token].expiresAt > r.now
                  && !(response.Consumed? && token == r.token)
                  ==> token in t.capabilities && t.capabilities[token] == s.capabilities[token])
            && (response.Rejected? ==> t == Prune(s, r.now))
  {
  }

  lemma PruneKeepsPendingBound(s: State, now: int, guild: int, user: int)
    ensures |PendingOf(Prune(s, now), guild, user)| <= |PendingOf(s, guild, user)|
  {
    SubsetSize(PendingOf(Prune(s, now), guild, user), PendingOf(s, guild, user));
  }

  lemma ProposeKeepsPendingBound(cfg: Config, s: State, r: Request, guild: int, user: int)
    requires r.Propose? && |PendingOf(s, guild, user)| <= cfg.maxPending
    ensures |PendingOf(AfterPropose(cfg, s, r).0, guild, user)| <= cfg.maxPending
  {
    var before, after := PendingOf(s, guild, user), PendingOf(AfterPropose(cfg, s, r).0, guild, user);
    if r.guild == guild && r.user == user {
      if AfterPropose(cfg, s, r).1.Proposed? {
        assert after == before + {r.drawn};
      }
    } else {
      SubsetSize(after, before);
    }
  }

  /** No call takes a principal past the limit. */
  lemma StepKeepsPendingBound(cfg: Config, s: State, r: Request, guild: int, user: int)
    requires |PendingOf(s, guild, user)| <= cfg.maxPending
    ensures |PendingOf(Step(cfg, s, r).0, guild, user)| <= cfg.maxPending
  {
    PruneKeepsPendingBound(s, r.now, guild, user);
    var pruned := Prune(s, r.now);
    var before := PendingOf(pruned, guild, user);
    match r
    case Propose(_, _, _, _, _, _, _, _) =>
      ProposeKeepsPendingBound(cfg, pruned, r, guild, user);
    case Confirm(_, _, _, _, _, _) =>
      SubsetSize(PendingOf(AfterConfirm(cfg, pruned, r).0, guild, user), before);
    case Consume(_, _, _, _, _) =>
      SubsetSize(PendingOf(AfterConsume(pruned, r).0, guild, user), before);
    case PendingCount(_) =>
  }

  // ---------------------------------------------------------------------
  // Whole runs
  // ---------------------------------------------------------------------

  /** The states between calls, the calls, and what they returned. */
  datatype Run = Run(states: seq<State>, calls: seq<Request>, responses: seq<Response>)

  ghost predicate Shaped(run: Run) {
    && |run.states| == |run.calls| + 1
    && |run.responses| == |run.calls|
    && run.states[0] == State(map[], map[])
  }

  ghost predicate StepOk(cfg: Config, run: Run, k: nat)
    requires Shaped(run) && k < |run.calls|
  {
    Step(cfg, run.states[k], run.calls[k]) == (run.states[k + 1], run.responses[k])
  }

  ghost predicate IsRun(cfg: Config, run: Run) {
    Shaped(run) && forall k :: 0 <= k < |run.calls| ==> StepOk(cfg, run, k)
  }

  /** Every sequence of calls has a run. */
  lemma {:induction false} RunExists(cfg: Config, calls: seq<Request>) returns (run: Run)
    ensures IsRun(cfg, run) && run.calls == calls
  {
    if calls == [] {
      run := Run([State(map[], map[])], [], []);
    } else {
      var n := |calls| - 1;
      var r := RunExists(cfg, calls[..n]);
      var (t, response) := Step(cfg, r.states[n], calls[n]);
      run := Run(r.states + [t], calls, r.responses + [response]);
      forall k | 0 <= k < |calls| ensures StepOk(cfg, run, k) {
        if k < n {
          assert StepOk(cfg, r, k);
        }
      }
    }
  }

  /** Tokens come from `secrets` and never repeat within a run. */
  ghost predicate FreshTokens(run: Run) {
    forall i, j :: 0 <= i < j < |run.calls| && Draws(run.calls[i]) && Draws(run.calls[j])
      ==> run.calls[i].drawn != run.calls[j].drawn
  }

  ghost predicate ConfirmsAt(run: Run, k: nat, id: string)
    requires Shaped(run) && k < |run.calls|
  {
    run.responses[k].Confirmed? && run.responses[k].capability.proposal.id == id
  }

  ghost predicate ConsumesAt(run: Run, k: nat, token: string)
    requires Shaped(run) && k < |run.calls|
  {
    run.responses[k].Consumed? && run.calls[k].Consume? && run.calls[k].token == token
  }

  /**
    After call `i` proposed it, a proposal is pending until a clock reading reaches its deadline or it is confirmed.
   */
  ghost predicate Pending(run: Run, i: nat, n: nat)
    requires Shaped(run) && i < n <= |run.calls| && run.responses[i].Proposed?
  {
    var p := run.responses[i].proposal;
    && (forall k :: i < k < n ==> run.calls[k].now < p.expiresAt)
    && (forall k :: i < k < n ==> !ConfirmsAt(run, k, p.id))
  }

  ghost predicate Usable(run: Run, j: nat, n: nat)
    requires Shaped(run) && j < n <= |run.calls| && run.responses[j].Confirmed?
  {
    var c := run.responses[j].capability;
    && (forall k :: j < k < n ==> run.calls[k].now < c.expiresAt)
    && (forall k :: j < k < n ==> !ConsumesAt(run, k, c.token))
  }

  lemma {:induction false} ProposalOrigin(cfg: Config, run: Run, n: nat, id: string) returns (i: nat)
    requires IsRun(cfg, run) && n <= |run.calls| && id in run.states[n].proposals
    ensures i < n && Draws(run.calls[i]) && run.calls[i].drawn == id
    ensures run.responses[i] == Proposed(run.states[n].proposals[id]) && run.states[n].proposals[id].id == id
  {
    assert StepOk(cfg, run, n - 1);
    StepAdds(cfg, run.states[n - 1], run.calls[n - 1]);
    StepResponses(cfg, run.states[n - 1], run.calls[n - 1]);
    if id in run.states[n - 1].proposals && run.states[n - 1].proposals[id] == run.states[n].proposals[id] {
      i := ProposalOrigin(cfg, run, n - 1, id);
    } else {
      i := n - 1;
    }
  }

  lemma {:induction false} CapabilityOrigin(cfg: Config, run: Run, n: nat, token: string) returns (j: nat)
    requires IsRun(cfg, run) && n <= |run.calls| && token in run.states[n].capabilities
    ensures j < n && Draws(run.calls[j]) && run.calls[j].drawn == token
    ensures run.responses[j] == Confirmed(run.states[n].capabilities[token])
  {
    assert StepOk(cfg, run, n - 1);
    StepAdds(cfg, run.states[n - 1], run.calls[n - 1]);
    StepResponses(cfg, run.states[n - 1], run.calls[n - 1]);
    if token in run.states[n - 1].capabilities
      && run.states[n - 1].capabilities[token] == run.states[n].capabilities[token] {
      j := CapabilityOrigin(cfg, run, n - 1, token);
    } else {
      j := n - 1;
    }
  }

  lemma KeysAreIds(cfg: Config, run: Run, n: nat)
    requires IsRun(cfg, run) && n <= |run.calls|
    ensures forall id :: id in run.states[n].proposals ==> run.states[n].proposals[id].id == id
  {
    forall id | id in run.states[n].proposals ensures run.states[n].proposals[id].id == id {
      var _ := ProposalOrigin(cfg, run, n, id);
    }
  }

  lemma PendingExtends(run: Run, i: nat, n: nat)
    requires Shaped(run) && i + 1 < n <= |run.calls| && run.responses[i].Proposed?
    ensures var p := run.responses[i].proposal;
            Pending(run, i, n) <==>
              Pending(run, i, n - 1) && run.calls[n - 1].now < p.expiresAt && !ConfirmsAt(run, n - 1, p.id)
  {
  }

  lemma UsableExtends(run: Run, j: nat, n: nat)
    requires Shaped(run) && j + 1 < n <= |run.calls| && run.responses[j].Confirmed?
    ensures var c := run.responses[j].capability;
            Usable(run, j, n) <==>
              Usable(run, j, n - 1) && run.calls[n - 1].now < c.expiresAt && !ConsumesAt(run, n - 1, c.token)
  {
  }

  /** A proposal is in the store exactly while it is pending. */
  lemma {:induction false} StoredIffPending(cfg: Config, run: Run, i: nat, n: nat)
    requires IsRun(cfg, run) && FreshTokens(run) && i < n <= |run.calls| && run.responses[i].Proposed?
    ensures var p := run.responses[i].proposal;
            && (p.id in run.states[n].proposals <==> Pending(run, i, n))
            && (p.id in run.states[n].proposals ==> run.states[n].proposals[p.id] == p)
  {
    assert StepOk(cfg, run, i);
    StepResponses(cfg, run.states[i], run.calls[i]);
    if i < n - 1 {
      StoredIffPending(cfg, run, i, n - 1);
      PendingExtends(run, i, n);
      KeysAreIds(cfg, run, n - 1);
      assert StepOk(cfg, run, n - 1);
      StepOnProposal(cfg, run.states[n - 1], run.calls[n - 1], run.calls[i].drawn);
    }
  }

  /** A capability is in the store exactly while it is usable. */
  lemma {:induction false} StoredIffUsable(cfg: Config, run: Run, j: nat, n: nat)
    requires IsRun(cfg, run) && FreshTokens(run) && j < n <= |run.calls| && run.responses[j].Confirmed?
    ensures var c := run.responses[j].capability;
            && (c.token in run.states[n].capabilities <==> Usable(run, j, n))
            && (c.token in run.states[n].capabilities ==> run.states[n].capabilities[c.token] == c)
  {
    assert StepOk(cfg, run, j);
    StepResponses(cfg, run.states[j], run.calls[j]);
    if j < n - 1 {
      StoredIffUsable(cfg, run, j, n - 1);
      UsableExtends(run, j, n);
      assert StepOk(cfg, run, n - 1);
      StepOnCapability(cfg, run.states[n - 1], run.calls[n - 1], run.calls[j].drawn);
      StepResponses(cfg, run.states[n - 1], run.calls[n - 1]);
    }
  }

  /** Call `i` proposed what the confirmation at `k` asks for, and it is still pending for this caller. */
  ghost predicate Confirmable(run: Run, i: nat, k: nat)
    requires Shaped(run) && i < k < |run.calls| && run.calls[k].Confirm?
  {
    && run.responses[i].Proposed?
    && var p := run.responses[i].proposal;
       && p.id == Strip(run.calls[k].rawId)
       && Matches(run.calls[k], p)
       && run.calls[k].now < p.expiresAt
       && Pending(run, i, k)
  }

  ghost predicate Consumable(run: Run, j: nat, k: nat)
    requires Shaped(run) && j < k < |run.calls| && run.calls[k].Consume?
  {
    && run.responses[j].Confirmed?
    && var c := run.responses[j].capability;
       && c.token == run.calls[k].token
       && Matches(run.calls[k], c.proposal)
       && run.calls[k].now < c.expiresAt
       && Usable(run, j, k)
  }

  /** A confirmation succeeds exactly when a matching proposal is still pending, and it returns that proposal. */
  lemma ConfirmSucceedsIff(cfg: Config, run: Run, k: nat)
    requires IsRun(cfg, run) && FreshTokens(run) && k < |run.calls| && run.calls[k].Confirm?
    ensures run.responses[k].Confirmed? <==> exists i :: 0 <= i < k && Confirmable(run, i, k)
    ensures forall i :: 0 <= i < k && Confirmable(run, i, k) ==>
              run.responses[k].capability.proposal == run.responses[i].proposal
  {
    assert StepOk(cfg, run, k);
    StepConfirms(cfg, run.states[k], run.calls[k]);
    if run.responses[k].Confirmed? {
      var i := ProposalOrigin(cfg, run, k, Strip(run.calls[k].rawId));
      StoredIffPending(cfg, run, i, k);
      assert Confirmable(run, i, k);
    }
    forall i | 0 <= i < k && Confirmable(run, i, k)
      ensures run.responses[k].Confirmed?
      ensures run.responses[k].capability.proposal == run.responses[i].proposal
    {
      StoredIffPending(cfg, run, i, k);
    }
  }

  /** A capability is consumed exactly when it is still usable by the caller, and it yields the confirmed proposal. */
  lemma ConsumeSucceedsIff(cfg: Config, run: Run, k: nat)
    requires IsRun(cfg, run) && FreshTokens(run) && k < |run.calls| && run.calls[k].Consume?
    ensures run.responses[k].Consumed? <==> exists j :: 0 <= j < k && Consumable(run, j, k)
    ensures forall j :: 0 <= j < k && Consumable(run, j, k) ==>
              run.responses[k].action == run.responses[j].capability.proposal
  {
    assert StepOk(cfg, run, k);
    StepConsumes(cfg, run.states[k], run.calls[k]);
    if run.responses[k].Consumed? {
      var j := CapabilityOrigin(cfg, run, k, run.calls[k].token);
      CapabilityCarriesToken(cfg, run, j);
      StoredIffUsable(cfg, run, j, k);
      assert Consumable(run, j, k);
    }
    forall j | 0 <= j < k && Consumable(run, j, k)
      ensures run.responses[k].Consumed?
      ensures run.responses[k].action == run.responses[j].capability.proposal
    {
      StoredIffUsable(cfg, run, j, k);
    }
  }

  lemma CapabilityCarriesToken(cfg: Config, run: Run, j: nat)
    requires IsRun(cfg, run) && j < |run.calls| && run.responses[j].Confirmed?
    ensures run.calls[j].Confirm?
    ensures var c := run.responses[j].capability;
            c == Capability(run.calls[j].drawn, c.proposal, run.calls[j].now, run.calls[j].now + cfg.capabilityTtl)
  {
    assert StepOk(cfg, run, j);
    StepResponses(cfg, run.states[j], run.calls[j]);
  }

  lemma ProposalCarriesRequest(cfg: Config, run: Run, i: nat)
    requires IsRun(cfg, run) && i < |run.calls| && run.responses[i].Proposed?
    ensures var r := run.calls[i];
            && r.Propose?
            && run.responses[i].proposal == Proposal(r.drawn, r.kind, r.payload, r.guild, r.channel, r.user,
                                                     r.sourceMessage, r.now, r.now + cfg.proposalTtl)
  {
    assert StepOk(cfg, run, i);
    StepResponses(cfg, run.states[i], run.calls[i]);
  }

  lemma ConsumeIsConsume(cfg: Config, run: Run, k: nat)
    requires IsRun(cfg, run) && k < |run.calls| && run.responses[k].Consumed?
    ensures run.calls[k].Consume?
  {
    assert StepOk(cfg, run, k);
    StepResponses(cfg, run.states[k], run.calls[k]);
  }

  /** Whatever is consumed was proposed and then confirmed, in this order, by the same principal, in time, unchanged. */
  lemma ConsumptionIsAuthorized(cfg: Config, run: Run, k: nat) returns (i: nat, j: nat)
    requires IsRun(cfg, run) && FreshTokens(run) && k < |run.calls| && run.responses[k].Consumed?
    ensures i < j < k && run.calls[i].Propose? && run.calls[j].Confirm? && run.calls[k].Consume?
    ensures var p := run.responses[k].action;
            var (ri, rj, rk) := (run.calls[i], run.calls[j], run.calls[k]);
            && run.responses[i] == Proposed(p)
            && run.responses[j] == Confirmed(Capability(rk.token, p, rj.now, rj.now + cfg.capabilityTtl))
            && p.id == ri.drawn == Strip(rj.rawId)
            && p.kind == ri.kind && p.payload == ri.payload && p.sourceMessage == ri.sourceMessage
            && ri.user == rj.user == rk.user && ri.guild == rj.guild == rk.guild
              && ri.channel == rj.channel == rk.channel
            && rj.now < ri.now + cfg.proposalTtl
            && rk.now < rj.now + cfg.capabilityTtl
  {
    ConsumeIsConsume(cfg, run, k);
    ConsumeSucceedsIff(cfg, run, k);
    j :| 0 <= j < k && Consumable(run, j, k);
    CapabilityCarriesToken(cfg, run, j);
    ConfirmSucceedsIff(cfg, run, j);
    i :| 0 <= i < j && Confirmable(run, i, j);
    ProposalCarriesRequest(cfg, run, i);
  }

  /** No proposal yields two capabilities. */
  lemma ConfirmedAtMostOnce(cfg: Config, run: Run, k: nat, l: nat)
    requires IsRun(cfg, run) && FreshTokens(run) && k < l < |run.calls|
    requires run.responses[k].Confirmed? && run.responses[l].Confirmed?
    ensures run.responses[k].capability.proposal.id != run.responses[l].capability.proposal.id
  {
    CapabilityCarriesToken(cfg, run, k);
    CapabilityCarriesToken(cfg, run, l);
    ConfirmSucceedsIff(cfg, run, k);
    ConfirmSucceedsIff(cfg, run, l);
    var i :| 0 <= i < l && Confirmable(run, i, l);
    var h :| 0 <= h < k && Confirmable(run, h, k);
    ProposalCarriesRequest(cfg, run, i);
    ProposalCarriesRequest(cfg, run, h);
    if i < k {
      assert !ConfirmsAt(run, k, run.responses[i].proposal.id);
    } else {
      assert run.calls[h].drawn != run.calls[i].drawn;
    }
  }

  /** No capability is consumed twice. */
  lemma TokenConsumedAtMostOnce(cfg: Config, run: Run, k: nat, l: nat)
    requires IsRun(cfg, run) && FreshTokens(run) && k < l < |run.calls|
    requires run.calls[k].Consume? && run.calls[l].Consume?
    requires run.responses[k].Consumed? && run.responses[l].Consumed?
    ensures run.calls[k].token != run.calls[l].token
  {
    ConsumeSucceedsIff(cfg, run, k);
    ConsumeSucceedsIff(cfg, run, l);
    var h :| 0 <= h < k && Consumable(run, h, k);
    var j :| 0 <= j < l && Consumable(run, j, l);
    CapabilityCarriesToken(cfg, run, h);
    CapabilityCarriesToken(cfg, run, j);
    if j < k {
      assert !ConsumesAt(run, k, run.responses[j].capability.token);
    } else {
      assert run.calls[h].drawn != run.calls[j].drawn;
    }
  }

  /** No proposal is carried out twice. */
  lemma ConsumedAtMostOnce(cfg: Config, run: Run, k: nat, l: nat)
    requires IsRun(cfg, run) && FreshTokens(run) && k < l < |run.calls|
    requires run.responses[k].Consumed? && run.responses[l].Consumed?
    ensures run.responses[k].action.id != run.responses[l].action.id
  {
    ConsumeIsConsume(cfg, run, k);
    ConsumeIsConsume(cfg, run, l);
    ConsumeSucceedsIff(cfg, run, k);
    ConsumeSucceedsIff(cfg, run, l);
    var h :| 0 <= h < k && Consumable(run, h, k);
    var j :| 0 <= j < l && Consumable(run, j, l);
    TokenConsumedAtMostOnce(cfg, run, k, l);
    if h < j {
      ConfirmedAtMostOnce(cfg, run, h, j);
    } else {
      ConfirmedAtMostOnce(cfg, run, j, h);
    }
  }

  /** No principal ever holds more than `maxPending` proposals, whatever the clock does. */
  lemma {:induction false} PendingBounded(cfg: Config, run: Run, n: nat, guild: int, user: int)
    requires cfg.Valid() && IsRun(cfg, run) && n <= |run.calls|
    ensures |PendingOf(run.states[n], guild, user)| <= cfg.maxPending
  {
    if n == 0 {
      assert PendingOf(run.states[0], guild, user) == {};
    } else {
      PendingBounded(cfg, run, n - 1, guild, user);
      assert StepOk(cfg, run, n - 1);
      StepKeepsPendingBound(cfg, run.states[n - 1], run.calls[n - 1], guild, user);
    }
  }
}
