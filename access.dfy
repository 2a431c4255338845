/**
 * The allow-lists kept in `allowed.json` (users who may enable the bot, chats it serves) and the
 * check that some allowed user is still a member of a chat.
 */
module Access {

  const AlreadyListed: string := "Channel already in allowed channels list"
  const ChannelAdded: string := "Channel added to list"

  /** A list after "append unless already present". */
  function Appended(xs: seq<int>, x: int): (r: seq<int>)
    ensures x in r
    ensures forall y :: y in r <==> y in xs || y == x
    ensures |xs| <= |r| <= |xs| + 1 && r[..|xs|] == xs
    ensures x in xs <==> r == xs
  {
    if x in xs then xs else xs + [x]
  }

  /** Appending an entry that is already present changes nothing, so a second append is a no-op. */
  lemma AppendedIdempotent(xs: seq<int>, x: int)
    ensures Appended(Appended(xs, x), x) == Appended(xs, x)
  {
  }

  /** The two lists, held in memory instead of being re-read from and re-written to the JSON file. */
  class AllowList {
    var users: seq<int>
    var channels: seq<int>

    constructor (users: seq<int>, channels: seq<int>)
      ensures this.users == users && this.channels == channels
    {
      this.users := users;
      this.channels := channels;
    }

    /** `init_users`: the admin id is appended to the users if it is not listed yet. */
    method InitUsers(adminId: int)
      modifies this
      ensures users == Appended(old(users), adminId)
      ensures channels == old(channels)
    {
      if adminId !in users {
        users := users + [adminId];
      }
    }

    /** `add_channels`: the chat is appended if absent; the message says which happened. */
    method AddChannel(chatId: int) returns (msg: string)
      modifies this
      ensures channels == Appended(old(channels), chatId)
      ensures users == old(users)
      ensures msg == if chatId in old(channels) then AlreadyListed else ChannelAdded
    {
      if chatId in channels {
        return AlreadyListed;
      } else if chatId !in channels {
        channels := channels + [chatId];
        return ChannelAdded;
      }
    }
  }

  /** `bot.get_chat_member(chat, user)` for one chat: an API error, or the member's status. */
  datatype MemberLookup = LookupFailed | Member(status: string)

  /** Status Telegram reports for a user who has left the chat. */
  const LeftStatus: string := "left"

  /** Specification of `allowed_presence_check`: the first user the lookup finds decides. */
  function Presence(users: seq<int>, lookup: int -> MemberLookup): (b: bool)
    ensures b ==> exists u :: u in users && lookup(u).Member? && lookup(u).status != LeftStatus
    ensures users == [] ==> !b
  {
    if users == [] then false
    else match lookup(users[0])
      case Member(status) =>
        var u := users[0];
        assert u in users && lookup(u).Member? && lookup(u).status == status;
        status != LeftStatus
      case LookupFailed =>
        assert forall u :: u in users[1..] ==> u in users;
        Presence(users[1..], lookup)
  }

  /**
   * The presence check holds exactly when some user is found whose status is not "left" and
   * every user before it was not found at all.
   */
  lemma {:induction false} PresenceFirstFoundDecides(users: seq<int>, lookup: int -> MemberLookup)
    ensures Presence(users, lookup) <==>
              exists i :: 0 <= i < |users| && lookup(users[i]).Member? && lookup(users[i]).status != LeftStatus
                          && forall j :: 0 <= j < i ==> lookup(users[j]).LookupFailed?
  {
    if users != [] && lookup(users[0]).LookupFailed? {
      var rest := users[1..];
      PresenceFirstFoundDecides(rest, lookup);
      if Presence(users, lookup) {
        var i :| 0 <= i < |rest| && lookup(rest[i]).Member? && lookup(rest[i]).status != LeftStatus
                 && forall j :: 0 <= j < i ==> lookup(rest[j]).LookupFailed?;
        assert users[i + 1] == rest[i];
        assert forall j :: 0 <= j < i + 1 ==> lookup(users[j]).LookupFailed? by {
          forall j | 0 <= j < i + 1 ensures lookup(users[j]).LookupFailed? {
            if j > 0 { assert users[j] == rest[j - 1]; }
          }
        }
      } else {
        forall i | 0 <= i < |users| && lookup(users[i]).Member? && lookup(users[i]).status != LeftStatus
          ensures exists j :: 0 <= j < i && !lookup(users[j]).LookupFailed?
        {
          assert i > 0 && users[i] == rest[i - 1];
          var k :| 0 <= k < i - 1 && !lookup(rest[k]).LookupFailed?;
          assert users[k + 1] == rest[k];
        }
      }
    }
  }

  /** `allowed_presence_check`: ask for each user in turn and return at the first one found. */
  method PresenceCheck(users: seq<int>, lookup: int -> MemberLookup) returns (present: bool)
    ensures present == Presence(users, lookup)
  {
    for i := 0 to |users|
      invariant Presence(users, lookup) == Presence(users[i..], lookup)
    {
      match lookup(users[i])
      case Member(status) =>
        if status == LeftStatus {
          return false;
        }
        return true;
      case LookupFailed =>
        assert users[i..][1..] == users[i + 1..];
    }
    return false;
  }
}
