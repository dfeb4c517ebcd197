# listening-to: the status reconciliation decision

`listening-to` keeps a Slack status in step with what is playing on Spotify.
On every scheduled tick, `ListeningTo::run_check` reads the currently-playing
snapshot and the Slack profile status, reads Slack presence only when
something is playing, and then issues exactly one of three actions: nothing,
`set_listening_to(label)` (the label with the `:musical_note:` emoji), or
`clear_status()` (empty text and emoji). A status carrying the
`:musical_note:` emoji is one the tool owns; any other status is the user's,
and the tool leaves it alone unless something is playing while the user is
working (then it writes the label with the marker, even an empty label).

The model has four modules:

- `Errors` (errors.dfy): `Option`, `Result`, `Outcome`, and one error per fallible remote call.
- `Spotify` (spotify.dfy): the currently-playing snapshot (`isPlaying` and an
  optional item that is a track or an episode). It also has the label rule of
  `format_currently_playing` and the absent-response mapping of
  `get_currently_playing_song`.
- `Slack` (slack.dfy): profile and presence responses, `is_working`,
  `is_listening_to`, and the marker emoji. The class `RemoteStatus` holds the
  displayed profile status (text, emoji, expiration). `GetActualStatus` reads
  those fields without changing them. `SetStatus`, `SetListeningTo` and
  `ClearStatus` change them as the platform would. A ghost log `Requested`
  records every status update attempted, including one whose send fails.
- `ListeningTo` (listening_to.dfy): the decision as pure functions, which
  mirror `handle_is_working`, `handle_not_working`, `handle_playing_song` and
  `run_check`. The `RunCheck` method performs the fetches in the source's
  order and then sends at most one write to a `RemoteStatus`.

The network sits at the boundary, and its answers are parameters:
- the Spotify response is a `Result<Option<CurrentlyPlayingContext>>`;
- the profile request's answer is a `Reply`, either `Unreachable` or `Answered(ok)`;
- the presence answer is a `Result<SlackPresence>`;
- the fate of a status update is a `Delivery`: `Applied`, `Ignored` (answered but not applied) or `SendFailed`.

`set_status` in src/slack.rs:89-96 only propagates an error when the request
cannot be sent. It never inspects the response, so a request the platform
refuses (`ok: false`) still counts as a success for the tick. `Ignored`
models that case.

Points where the sources disagree, and how the model resolves them:

- src/listening_to.rs imports `CurrentPlayingSong` and calls
  `get_current_playing_song`, `.format()` and `.is_playing`. src/spotify.rs
  defines only `get_currently_playing_song`, which returns
  `CurrentlyPlayingContext`, and `format_currently_playing`. The model uses
  one snapshot type, `CurrentlyPlayingContext`, and takes the label from
  src/spotify.rs:68-80.
- A snapshot can be playing without a track, for example with no item or
  with an episode. Its label is then empty. The code still takes the
  announcing path: when the user is working and the status text is not
  empty, it writes the empty text with the marker emoji. The model keeps this
  behaviour (`EmptyLabelIsWritten`).
- `handle_is_working` compares only the status text with the label. It checks
  neither the emoji nor the profile's `ok` flag, and the model does the same
  (`MatchingTextIsKept`).

## Model

| member | source | states |
|---|---|---|
| `Spotify.ArtistNames` | src/spotify.rs:71-75 | the collected names have one entry per artist, and entry i is the name of artist i, so order is kept |
| `Spotify.JoinAppend` | src/spotify.rs:76 | joining a concatenation of two non-empty lists is the two joins with one separator between them |
| `Spotify.ArtistNamesAppend` | src/spotify.rs:71-75 | the names of a concatenated artist list are the concatenated names |
| `Spotify.TrackLabel` | src/spotify.rs:70-76 | a track's label starts with its name, then " - ", then the artist names joined by ", " |
| `Spotify.EmptyLabelIffNoTrack` | src/spotify.rs:68-80 | the label is empty exactly when the item is absent or not a track, so a track's label is never empty, even with no artists |
| `Spotify.SingleArtistLabel` | src/spotify.rs:71-76 | a one-artist track is labelled `name - artist` |
| `Spotify.NoArtistLabel` | src/spotify.rs:76 | a track without artists is labelled `name - `, so the separator is always there |
| `Spotify.ArtistOrderKept` | src/spotify.rs:71-76 | splitting the artist list into a front and a back splits the label's artist part at a ", " with the front first |
| `Spotify.GetCurrentlyPlayingSong` | src/spotify.rs:44-66 | a failed request is a playback error; an absent response becomes the not-playing snapshot with no item; any other response is passed through unchanged |
| `Spotify.AbsentResponseAnnouncesNothing` | src/spotify.rs:54-64 | an absent response is not playing and its label is empty |
| `Slack.NotWorkingUnlessAll` | src/slack.rs:111-113 | working holds iff ok, online and presence "active" all hold; any one failing means not working |
| `Slack.NotOkNeverOwned` | src/slack.rs:117-119 | a profile answered with `ok = false` is never owned, whatever emoji it shows |
| `Slack.ListeningStatusReadsBack` | src/slack.rs:99-102 | after set_listening_to(t), the profile reads back with text t, and it is owned exactly when the answer is ok |
| `Slack.ClearedStatusReadsBack` | src/slack.rs:104-107 | after clear_status, the profile reads back as empty text and emoji and is not owned |
| `Slack.ReadProfile` | src/slack.rs:54-65 | a profile request fails iff the platform is unreachable; otherwise it returns the displayed status with the answer's ok flag |
| `Slack.WriteOutcome` | src/slack.rs:89-96 | a status update reports an error exactly when the request could not be sent |
| `Slack.RemoteStatus.GetActualStatus` | src/slack.rs:54-65 | reading the profile returns what `ReadProfile` gives for the displayed status and changes nothing |
| `Slack.RemoteStatus.SetStatus` | src/slack.rs:80-97 | sends one request with exactly the given text and emoji; when applied, the status becomes that text and emoji with expiration 0; otherwise nothing changes |
| `Slack.RemoteStatus.SetListeningTo` | src/slack.rs:99-102 | sends and, when applied, shows text t with the `:musical_note:` emoji |
| `Slack.RemoteStatus.ClearStatus` | src/slack.rs:104-107 | sends and, when applied, shows empty text and empty emoji |
| `Spotify.Join` | src/spotify.rs:76 | a non-empty join is as long as all parts together plus one separator per gap between them; the body's one-part case (`Join([x]) == x`), this length contract and `Spotify.JoinAppend` (joining a concatenation puts one separator between the two joins) together give the join |
| `Spotify.FormatCurrentlyPlaying` | src/spotify.rs:68-80 | the label rule; its contract is stated by `Spotify.TrackLabel`, `Spotify.EmptyLabelIffNoTrack`, `Spotify.SingleArtistLabel`, `Spotify.NoArtistLabel` and `Spotify.ArtistOrderKept` |
| `Slack.IsWorking` | src/slack.rs:111-113 | the working predicate; its contract is stated by `Slack.NotWorkingUnlessAll` |
| `Slack.IsListeningTo` | src/slack.rs:117-119 | the ownership predicate; its contract is stated by `Slack.NotOkNeverOwned`, `Slack.ListeningStatusReadsBack` and `Slack.ClearedStatusReadsBack` |
| `ListeningTo.HandleIsWorking` | src/listening_to.rs:22-33 | the working path; its contract is stated by `ListeningTo.NewLabelIsAnnounced`, `ListeningTo.MatchingTextIsKept` and `ListeningTo.DecideCases` |
| `ListeningTo.HandleNotWorking` | src/listening_to.rs:35-40 | the not-working path; its contract is stated by `ListeningTo.NotWorkingFallsThrough`, `ListeningTo.NoClobber` and `ListeningTo.DecideCases` |
| `ListeningTo.HandlePlayingSong` | src/listening_to.rs:42-56 | the presence fetch and dispatch; its contract is stated by `ListeningTo.DecideCases` (error iff the presence fetch failed) and `ListeningTo.NotWorkingFallsThrough` |
| `ListeningTo.Decide` | src/listening_to.rs:62-68 | the branch on `is_playing`; its contract is stated by `ListeningTo.DecideCases`, `ListeningTo.NotPlayingIgnoresPresence` and `ListeningTo.WritesOnlyOwnedStatus` |
| `ListeningTo.Written` | src/listening_to.rs:27-38 | every action sends at most one request, and it sends none exactly when it is the no-op |
| `ListeningTo.Apply` | src/listening_to.rs:27-38 | the no-op leaves the status as it was; any other action leaves exactly the status its one request carries |
| `ListeningTo.Reconcile` | src/listening_to.rs:58-60 | a failed playback fetch aborts the tick before the profile is read, and a failed profile fetch aborts it before any decision |
| `ListeningTo.Perform` | src/listening_to.rs:28-37 | the action's one request, if any, is sent, and the status changes only when it is applied |
| `ListeningTo.RunCheck` | src/listening_to.rs:58-71 | the tick sends the decided action's requests and nothing more, at most one and only after all reads; a failed fetch sends nothing and returns that error; the status changes only by an applied write |
| `ListeningTo.DecideCases` | src/listening_to.rs:22-68 | clear iff the status is owned and (nothing plays or the user is not working); announce the label iff playing, working and the label differs from the text; no-op iff neither; error iff playing and the presence fetch failed |
| `ListeningTo.NotPlayingIgnoresPresence` | src/listening_to.rs:62-67 | when nothing plays, the presence answer, even a failed one, does not affect the decision, which is clear iff the status is owned |
| `ListeningTo.NewLabelIsAnnounced` | src/listening_to.rs:49-51 | playing, working, and the label differs from the text: the action is set_listening_to(label) |
| `ListeningTo.MatchingTextIsKept` | src/listening_to.rs:27 | playing, working, and the text equals the label: no write, whatever the emoji or ok flag |
| `ListeningTo.NotWorkingFallsThrough` | src/listening_to.rs:54 | playing but not working: the decision is the not-working path, clear iff the status is owned |
| `ListeningTo.NoClobber` | src/listening_to.rs:35-40 | a status the tool does not own is never written unless the tool is playing and working |
| `ListeningTo.WritesOnlyOwnedStatus` | src/listening_to.rs:27-40 | every write either replaces an owned status or installs a status carrying the marker; every clear is of an owned status |
| `ListeningTo.EmptyLabelIsWritten` | src/listening_to.rs:27-31 | playing with no item or with an episode, while working and showing non-empty text, announces the empty label with the marker |
| `ListeningTo.SecondTickIsQuiet` | src/listening_to.rs:27-40 | after a tick's write is applied, a tick with the same playback and presence decides no write, for set and clear alike |
| `ListeningTo.ConsecutiveChecks` | src/main.rs:16-23 | two consecutive loop ticks on unchanged inputs, the first write applied: a failed first tick (any failed fetch, an unreachable profile included) ends the loop with no second tick; otherwise the second tick succeeds and attempts nothing, so the only request attempted is the first tick's decided write, if any, and the status ends as that write leaves it, with expiration 0 after a write |

## Left out

- HTTP plumbing is not modelled: client construction, the authorization and cookie headers, URLs and JSON (de)serialisation (src/slack.rs:33-97). Each remote call is reduced to the answer it yields. A body that fails to decode is the same error as a failed request.
- The Spotify OAuth flow, token cache and the rspotify `current_playing` call (src/spotify.rs:17-42, 45-52) are foreign library and network calls. Their result is a parameter.
- Timestamps, progress, context, `currently_playing_type` and `actions` of the currently-playing response are not modelled. The decision never reads them.
- Configuration loading (src/config.rs) is not modelled. It is environment I/O with defaults.
- The scheduling loop, cron parsing and sleeping (src/main.rs) are not modelled. `ConsecutiveChecks` covers two iterations of the loop, stopping after a failed first tick as `?` at src/main.rs:22 does. The scheduler module is not part of this model.
- Async execution, tokio and logging (`log::info!`) are not modelled. They do not affect the decision.
- Slack.RemoteStatus.SetStatus: a request whose send fails is modelled as not applied. A request that reached the platform before the connection failed is not modelled.
- Profile fields other than the status text, the emoji and the expiration are not modelled. SetStatus sends only those three.
- Slack.ReadProfile: an answered profile request is assumed to carry the status actually displayed, even when its `ok` flag is false. The source only requires the body to decode into `SlackProfile` (src/slack.rs:10-14, 62), so an `ok = false` body could carry another status. `SecondTickIsQuiet` relies on this assumption for answers with `ok = false`.
- Slack.RemoteStatus: the profile is read from the configured base URL (src/slack.rs:57), but status updates always go to `https://slack.com` (src/slack.rs:90). The model treats both as the same status, so `SecondTickIsQuiet` and `ConsecutiveChecks` hold only when the base URL reaches that same workspace, as the default base URL in src/config.rs:19-20 does.
