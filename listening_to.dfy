/**
 * The reconciler: on each tick it reads the playback snapshot and the
 * displayed status, consults presence only when something is playing, and
 * issues at most one status write.
 */
module ListeningTo {
  import opened Errors
  import opened Spotify
  import opened Slack

  /** The single outcome of a tick's decision. */
  datatype Action = NoOp | SetListening(text: string) | Clear

  /** The status update requests an action sends. */
  function Written(action: Action): (requests: seq<Profile>)
    ensures |requests| <= 1
    ensures requests == [] <==> action == NoOp
  {
    match action
    case NoOp => []
    case SetListening(text) => [ListeningStatus(text)]
    case Clear => [ClearedStatus]
  }

  /** The displayed status once the action's write, if any, has been applied to `before`. */
  function Apply(action: Action, before: Profile): (after: Profile)
    ensures action == NoOp ==> after == before
    ensures action != NoOp ==> [after] == Written(action)
  {
    match action
    case NoOp => before
    case SetListening(text) => ListeningStatus(text)
    case Clear => ClearedStatus
  }

  /** `handle_is_working`: announce the label unless the status text already shows it. */
  function HandleIsWorking(song: CurrentlyPlayingContext, profile: SlackProfile): Action
  {
    if FormatCurrentlyPlaying(song) != profile.profile.statusText
    then SetListening(FormatCurrentlyPlaying(song))
    else NoOp
  }

  /** `handle_not_working`: undo this tool's status if it is the one shown. */
  function HandleNotWorking(profile: SlackProfile): Action
  {
    if IsListeningTo(profile) then Clear else NoOp
  }

  /** `handle_playing_song`: the presence fetch, then the working or the not-working path. */
  function HandlePlayingSong(song: CurrentlyPlayingContext, profile: SlackProfile,
                             presence: Result<SlackPresence>): Result<Action>
  {
    match presence
    case Err(_) => Err(PresenceUnavailable)
    case Ok(p) =>
      if IsWorking(p) then Ok(HandleIsWorking(song, profile)) else Ok(HandleNotWorking(profile))
  }

  /** The decision `run_check` takes once the snapshot and the profile are in hand. */
  function Decide(song: CurrentlyPlayingContext, profile: SlackProfile,
                  presence: Result<SlackPresence>): Result<Action>
  {
    if song.isPlaying then HandlePlayingSong(song, profile, presence)
    else Ok(HandleNotWorking(profile))
  }

  /** A whole tick on the raw fetch results, in `run_check`'s order: playback, profile, presence. */
  function Reconcile(playback: Result<Option<CurrentlyPlayingContext>>, profile: Result<SlackProfile>,
                     presence: Result<SlackPresence>): (decision: Result<Action>)
    ensures playback.Err? ==> decision == Err(PlaybackUnavailable)
    ensures playback.Ok? && profile.Err? ==> decision == Err(profile.error)
  {
    match GetCurrentlyPlayingSong(playback)
    case Err(e) => Err(e)
    case Ok(song) =>
      match profile
      case Err(e) => Err(e)
      case Ok(p) => Decide(song, p, presence)
  }

  /** Sends the action's write, if it has one. */
  method Perform(slack: RemoteStatus, action: Action, delivery: Delivery) returns (r: Outcome)
    modifies slack
    ensures slack.Requested == old(slack.Requested) + Written(action)
    ensures slack.Displayed() == if action != NoOp && delivery == Applied
                                 then Apply(action, old(slack.Displayed())) else old(slack.Displayed())
    ensures slack.statusExpiration == if action != NoOp && delivery == Applied
                                      then 0 else old(slack.statusExpiration)
    ensures r == if action == NoOp then Pass else WriteOutcome(delivery)
  {
    match action
    case NoOp =>
      r := Pass;
    case SetListening(text) =>
      r := slack.SetListeningTo(text, delivery);
    case Clear =>
      r := slack.ClearStatus(delivery);
  }

  /**
   * `run_check`: fetch the snapshot, then the profile, decide (fetching
   * presence only on the playing path), and send at most one write, last.
   * Any failed fetch ends the tick before a write is sent.
   */
  method RunCheck(slack: RemoteStatus, playback: Result<Option<CurrentlyPlayingContext>>, reply: Reply,
                  presence: Result<SlackPresence>, delivery: Delivery) returns (r: Outcome)
    modifies slack
    ensures var decision := Reconcile(playback, ReadProfile(reply, old(slack.Displayed())), presence);
            var written := decision.Ok? && decision.value != NoOp && delivery == Applied;
            && slack.Requested == old(slack.Requested) + (if decision.Ok? then Written(decision.value) else [])
            && slack.Displayed() == (if written then Apply(decision.value, old(slack.Displayed()))
                                     else old(slack.Displayed()))
            && slack.statusExpiration == (if written then 0 else old(slack.statusExpiration))
            && r == (if decision.Err? then Fail(decision.error)
                     else if decision.value == NoOp then Pass
                     else WriteOutcome(delivery))
  {
    var song := GetCurrentlyPlayingSong(playback);
    if song.Err? {
      return Fail(song.error);
    }
    var profile := slack.GetActualStatus(reply);
    if profile.Err? {
      return Fail(profile.error);
    }
    var decision := Decide(song.value, profile.value, presence);
    if decision.Err? {
      return Fail(decision.error);
    }
    r := Perform(slack, decision.value, delivery);
  }

  /** Every outcome of the decision, each stated as an if-and-only-if. */
  lemma DecideCases(song: CurrentlyPlayingContext, profile: SlackProfile, presence: Result<SlackPresence>)
    ensures var working := song.isPlaying && presence.Ok? && IsWorking(presence.value);
            var idle := !song.isPlaying || (presence.Ok? && !IsWorking(presence.value));
            var announced := FormatCurrentlyPlaying(song);
            var decision := Decide(song, profile, presence);
            && (decision == Ok(Clear) <==> idle && IsListeningTo(profile))
            && (decision == Ok(SetListening(announced)) <==> working && announced != profile.profile.statusText)
            && (decision == Ok(NoOp) <==> (working && announced == profile.profile.statusText)
                                          || (idle && !IsListeningTo(profile)))
            && (decision.Err? <==> song.isPlaying && presence.Err?)
    ensures forall text :: Decide(song, profile, presence) == Ok(SetListening(text)) ==> text == FormatCurrentlyPlaying(song)
  {
  }

  /** When nothing is playing, presence is not consulted and only a clear of an owned status can happen. */
  lemma NotPlayingIgnoresPresence(song: CurrentlyPlayingContext, profile: SlackProfile,
                                  p1: Result<SlackPresence>, p2: Result<SlackPresence>)
    requires !song.isPlaying
    ensures Decide(song, profile, p1) == Decide(song, profile, p2)
    ensures Decide(song, profile, p1) == Ok(if IsListeningTo(profile) then Clear else NoOp)
  {
  }

  /** Playing and working with a label other than the status text: the label is announced. */
  lemma NewLabelIsAnnounced(song: CurrentlyPlayingContext, profile: SlackProfile, presence: SlackPresence)
    requires song.isPlaying && IsWorking(presence)
    requires FormatCurrentlyPlaying(song) != profile.profile.statusText
    ensures Decide(song, profile, Ok(presence)) == Ok(SetListening(FormatCurrentlyPlaying(song)))
  {
  }

  /** Playing and working with the label already shown as text: no write, whatever the emoji or `ok`. */
  lemma MatchingTextIsKept(song: CurrentlyPlayingContext, ok: bool, emoji: string, presence: SlackPresence)
    requires song.isPlaying && IsWorking(presence)
    ensures Decide(song, SlackProfile(ok, Profile(FormatCurrentlyPlaying(song), emoji)), Ok(presence)) == Ok(NoOp)
  {
  }

  /** Playing but not working: the not-working path decides. */
  lemma NotWorkingFallsThrough(song: CurrentlyPlayingContext, profile: SlackProfile, presence: SlackPresence)
    requires song.isPlaying && !IsWorking(presence)
    ensures Decide(song, profile, Ok(presence)) == Ok(HandleNotWorking(profile))
    ensures Decide(song, profile, Ok(presence)) == Ok(if IsListeningTo(profile) then Clear else NoOp)
  {
  }

  /** A status this tool does not own survives every tick that does not announce a track. */
  lemma NoClobber(song: CurrentlyPlayingContext, profile: SlackProfile, presence: Result<SlackPresence>)
    requires !IsListeningTo(profile)
    requires !(song.isPlaying && presence.Ok? && IsWorking(presence.value))
    ensures Decide(song, profile, presence).Ok? ==> Decide(song, profile, presence).value == NoOp
  {
  }

  /** Every write either replaces an owned status or installs a new owned one. */
  lemma WritesOnlyOwnedStatus(song: CurrentlyPlayingContext, profile: SlackProfile, presence: Result<SlackPresence>)
    requires Decide(song, profile, presence).Ok? && Decide(song, profile, presence).value != NoOp
    ensures IsListeningTo(profile) || Apply(Decide(song, profile, presence).value, profile.profile).statusEmoji == ListeningToEmoji
    ensures Decide(song, profile, presence).value == Clear ==> IsListeningTo(profile)
  {
  }

  /** A playing snapshot without a track still writes its empty label, with the marker, over other text. */
  lemma EmptyLabelIsWritten(profile: SlackProfile, presence: SlackPresence)
    requires IsWorking(presence) && profile.profile.statusText != ""
    ensures Decide(CurrentlyPlayingContext(true, None), profile, Ok(presence)) == Ok(SetListening(""))
    ensures Decide(CurrentlyPlayingContext(true, Some(Episode)), profile, Ok(presence)) == Ok(SetListening(""))
    ensures Apply(SetListening(""), profile.profile) == Profile("", ListeningToEmoji)
  {
  }

  /**
   * Idempotence: once a tick's decision is applied, a tick on the same
   * playback and presence decides no write. After a write this holds for any
   * answered profile request; after no write, for the same answer as before.
   */
  lemma SecondTickIsQuiet(playback: Result<Option<CurrentlyPlayingContext>>, before: Profile,
                            reply: Reply, again: Reply, presence: Result<SlackPresence>)
    requires Reconcile(playback, ReadProfile(reply, before), presence).Ok?
    requires again.Answered?
    requires Reconcile(playback, ReadProfile(reply, before), presence).value == NoOp ==> again == reply
    ensures Reconcile(playback, ReadProfile(again, Apply(Reconcile(playback, ReadProfile(reply, before), presence).value, before)), presence)
            == Ok(NoOp)
  {
  }

  /**
   * Two consecutive ticks of the scheduling loop over unchanged playback,
   * presence and platform answers, the first write being applied. A failed
   * first tick ends the loop, so there is no second tick; otherwise the
   * second tick attempts nothing, and the pair attempts only the first
   * tick's write, if any.
   */
  method ConsecutiveChecks(slack: RemoteStatus, playback: Result<Option<CurrentlyPlayingContext>>, reply: Reply,
                           presence: Result<SlackPresence>, secondDelivery: Delivery)
    returns (first: Outcome, second: Option<Outcome>)
    modifies slack
    ensures var decision := Reconcile(playback, ReadProfile(reply, old(slack.Displayed())), presence);
            var written := decision.Ok? && decision.value != NoOp;
            && slack.Requested == old(slack.Requested) + (if decision.Ok? then Written(decision.value) else [])
            && slack.Displayed() == (if decision.Ok? then Apply(decision.value, old(slack.Displayed()))
                                     else old(slack.Displayed()))
            && slack.statusExpiration == (if written then 0 else old(slack.statusExpiration))
            && first == (if decision.Err? then Fail(decision.error) else Pass)
    ensures first.Fail? <==> second == None
    ensures first.Pass? ==> second == Some(Pass)
  {
    ghost var before := slack.Displayed();
    first := RunCheck(slack, playback, reply, presence, Applied);
    if first.Fail? {
      return first, None;
    }
    SecondTickIsQuiet(playback, before, reply, reply, presence);
    var outcome := RunCheck(slack, playback, reply, presence, secondDelivery);
    second := Some(outcome);
  }
}
