/** The messaging platform: profile status, presence, and the writes that change the status. */
module Slack {
  import opened Errors

  /** The emoji that marks a status as one this tool set. */
  const ListeningToEmoji: string := ":musical_note:"

  /** The presence value of a user who is at the keyboard. */
  const ActivePresence: string := "active"

  /** The displayed status. */
  datatype Profile = Profile(statusText: string, statusEmoji: string)

  /** A profile response: the platform's `ok` flag and the displayed status. */
  datatype SlackProfile = SlackProfile(ok: bool, profile: Profile)

  /** A presence response. */
  datatype SlackPresence = SlackPresence(ok: bool, presence: string, online: bool)

  /** The user counts as working only when the response is ok, online and active. */
  predicate IsWorking(p: SlackPresence)
  {
    p.ok && p.online && p.presence == ActivePresence
  }

  /** The displayed status is owned by this tool: the response is ok and carries the marker emoji. */
  predicate IsListeningTo(p: SlackProfile)
  {
    p.ok && p.profile.statusEmoji == ListeningToEmoji
  }

  /** The status `set_listening_to(text)` writes. */
  function ListeningStatus(text: string): Profile
  {
    Profile(text, ListeningToEmoji)
  }

  /** The status `clear_status` writes. */
  const ClearedStatus: Profile := Profile("", "")

  /** How the answer to a profile request came back. */
  datatype Reply = Unreachable | Answered(ok: bool)

  /** What a profile request yields while `displayed` is shown. */
  function ReadProfile(reply: Reply, displayed: Profile): (r: Result<SlackProfile>)
    ensures r.Ok? <==> reply.Answered?
    ensures r.Ok? ==> r.value.profile == displayed && r.value.ok == reply.ok
    ensures r.Err? ==> r.error == ProfileUnavailable
  {
    match reply
    case Unreachable => Err(ProfileUnavailable)
    case Answered(ok) => Ok(SlackProfile(ok, displayed))
  }

  /**
   * How a status update request went: the platform applied it, the platform
   * answered without applying it (the answer is not inspected), or the
   * request could not be sent.
   */
  datatype Delivery = Applied | Ignored | SendFailed

  /** The outcome the caller of `set_status` sees: only a failed send is an error. */
  function WriteOutcome(delivery: Delivery): (r: Outcome)
    ensures r.Fail? <==> delivery == SendFailed
    ensures r.Fail? ==> r.error == StatusNotSet
  {
    if delivery == SendFailed then Fail(StatusNotSet) else Pass
  }

  /** The user's profile as held by the platform, changed only by status updates. */
  class RemoteStatus {
    var statusText: string
    var statusEmoji: string
    var statusExpiration: int
    /** Every status update attempted, in order, whether or not it reached the platform. */
    ghost var Requested: seq<Profile>

    function Displayed(): Profile
      reads this
    {
      Profile(statusText, statusEmoji)
    }

    constructor (text: string, emoji: string, expiration: int)
      ensures Displayed() == Profile(text, emoji) && statusExpiration == expiration
      ensures Requested == []
    {
      statusText, statusEmoji, statusExpiration := text, emoji, expiration;
      Requested := [];
    }

    /** `get_actual_status`: reads the profile; changes nothing. */
    method GetActualStatus(reply: Reply) returns (r: Result<SlackProfile>)
      ensures r == ReadProfile(reply, Displayed())
    {
      match reply
      case Unreachable =>
        r := Err(ProfileUnavailable);
      case Answered(ok) =>
        r := Ok(SlackProfile(ok, Profile(statusText, statusEmoji)));
    }

    /** `set_status`: attempts one update of text and emoji, with the expiration reset to 0. */
    method SetStatus(text: string, emoji: string, delivery: Delivery) returns (r: Outcome)
      modifies this
      ensures Requested == old(Requested) + [Profile(text, emoji)]
      ensures delivery == Applied ==> Displayed() == Profile(text, emoji) && statusExpiration == 0
      ensures delivery != Applied ==> Displayed() == old(Displayed()) && statusExpiration == old(statusExpiration)
      ensures r == WriteOutcome(delivery)
    {
      Requested := Requested + [Profile(text, emoji)];
      if delivery == Applied {
        statusText, statusEmoji, statusExpiration := text, emoji, 0;
      }
      r := if delivery == SendFailed then Fail(StatusNotSet) else Pass;
    }

    /** `set_listening_to`: shows `text` with the marker emoji. */
    method SetListeningTo(text: string, delivery: Delivery) returns (r: Outcome)
      modifies this
      ensures Requested == old(Requested) + [ListeningStatus(text)]
      ensures delivery == Applied ==> Displayed() == ListeningStatus(text) && statusExpiration == 0
      ensures delivery != Applied ==> Displayed() == old(Displayed()) && statusExpiration == old(statusExpiration)
      ensures r == WriteOutcome(delivery)
    {
      r := SetStatus(text, ListeningToEmoji, delivery);
    }

    /** `clear_status`: empties both text and emoji. */
    method ClearStatus(delivery: Delivery) returns (r: Outcome)
      modifies this
      ensures Requested == old(Requested) + [ClearedStatus]
      ensures delivery == Applied ==> Displayed() == ClearedStatus && statusExpiration == 0
      ensures delivery != Applied ==> Displayed() == old(Displayed()) && statusExpiration == old(statusExpiration)
      ensures r == WriteOutcome(delivery)
    {
      r := SetStatus("", "", delivery);
    }
  }

  /** Any one of the three presence conditions failing means not working. */
  lemma NotWorkingUnlessAll(p: SlackPresence)
    ensures !p.ok ==> !IsWorking(p)
    ensures !p.online ==> !IsWorking(p)
    ensures p.presence != ActivePresence ==> !IsWorking(p)
    ensures IsWorking(p) <==> p.ok && p.online && p.presence == "active"
  {
  }

  /** A profile response that is not ok is never treated as owned, whatever it shows. */
  lemma NotOkNeverOwned(displayed: Profile)
    ensures !IsListeningTo(SlackProfile(false, displayed))
  {
  }

  /** After `set_listening_to`, the status reads back as owned whenever the response is ok, with text `text`. */
  lemma ListeningStatusReadsBack(text: string, reply: Reply)
    requires reply.Answered?
    ensures ReadProfile(reply, ListeningStatus(text)).value.profile.statusText == text
    ensures IsListeningTo(ReadProfile(reply, ListeningStatus(text)).value) <==> reply.ok
  {
  }

  /** After `clear_status`, the status reads back empty and not owned. */
  lemma ClearedStatusReadsBack(reply: Reply)
    requires reply.Answered?
    ensures ReadProfile(reply, ClearedStatus).value.profile == Profile("", "")
    ensures !IsListeningTo(ReadProfile(reply, ClearedStatus).value)
  {
  }
}
