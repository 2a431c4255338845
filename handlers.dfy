/**
 * The two Telegram handlers: `start_command_bot` for the start command and `print_funct` for voice
 * messages. Each is a decision function over the allow-lists, the presence check and the clip's
 * duration, plus a method that carries out the decision.
 */
module Handlers {
  import opened Wrappers
  import opened Access
  import opened Cache
  import opened Storage
  import opened Recognition
  import opened Voice

  const CannotStart: string := "Вы не можете стартовать бота"
  const AlreadyServingText: string := "Я уже повинуюсь, господин"
  const Bewildered: string := "ВАТАФФФ"
  const TooLong: string := "Голосовуха больше 5 минут? Я конечно хочу служить, но не настолько."

  /**
   * What the start handler does: refuse, enroll the chat and greet, say it is already serving,
   * fall through the inner `elif` without doing anything, or reach the final `else`.
   */
  datatype StartAction = Refuse | Enroll | AlreadyServing | NoAction | Puzzled

  /**
   * The decision table of `start_command_bot`. Its tests are complementary, so the silent fall-through
   * and the final `else` can never be taken.
   */
  function StartDecision(channels: seq<int>, users: seq<int>, chatId: int, userId: int): (a: StartAction)
    ensures a != NoAction && a != Puzzled
    ensures a == Refuse <==> chatId !in channels && userId !in users
    ensures a == Enroll <==> chatId !in channels && userId in users
    ensures a == AlreadyServing <==> chatId in channels
  {
    if chatId !in channels then
      if userId !in users then Refuse
      else if userId in users then Enroll
      else NoAction
    else if chatId in channels then AlreadyServing
    else Puzzled
  }

  /** The text reply for a start decision; enrolling answers with the greeting voice note instead. */
  function StartReply(a: StartAction): Option<string>
  {
    match a
    case Refuse => Some(CannotStart)
    case AlreadyServing => Some(AlreadyServingText)
    case Puzzled => Some(Bewildered)
    case Enroll => None
    case NoAction => None
  }

  /** After a chat is enrolled, the next start command in it, by anyone, only gets "already serving". */
  lemma EnrolledChatIsServed(channels: seq<int>, users: seq<int>, chatId: int, userId: int, nextUser: int)
    requires StartDecision(channels, users, chatId, userId) == Enroll
    ensures StartDecision(Appended(channels, chatId), users, chatId, nextUser) == AlreadyServing
  {
  }

  /**
   * `start_command_bot`: only an allowed user in an unlisted chat changes anything, by adding the
   * chat to the allowed channels and sending the greeting; the user list never changes.
   */
  method StartCommand(allow: AllowList, chatId: int, userId: int)
    returns (action: StartAction, greeted: bool, reply: Option<string>)
    modifies allow
    ensures action == StartDecision(old(allow.channels), old(allow.users), chatId, userId)
    ensures allow.users == old(allow.users)
    ensures allow.channels == if action == Enroll then Appended(old(allow.channels), chatId) else old(allow.channels)
    ensures greeted <==> action == Enroll
    ensures reply == StartReply(action)
  {
    action := StartDecision(allow.channels, allow.users, chatId, userId);
    greeted := false;
    if action == Enroll {
      var _ := allow.AddChannel(chatId);
      greeted := true;
    }
    reply := StartReply(action);
  }

  /** What the voice handler does with a clip. */
  datatype VoiceAction = Ignore | RefuseTooLong | Transcribe

  /**
   * The gate of `print_funct`: ignore unless the chat is listed and an allowed user is present;
   * refuse clips longer than `maxDuration`; transcribe the rest, a clip of exactly `maxDuration`
   * included.
   */
  function VoiceGate(listed: bool, present: bool, duration: int, maxDuration: int): (a: VoiceAction)
    ensures a == Ignore <==> !listed || !present
    ensures a == RefuseTooLong <==> listed && present && duration > maxDuration
    ensures a == Transcribe <==> listed && present && duration <= maxDuration
  {
    if !listed || !present then Ignore
    else if duration > maxDuration then RefuseTooLong
    else Transcribe
  }

  /**
   * `print_funct`: the presence check runs only for a listed chat (short-circuit `or`); a clip that
   * passes the gate gets exactly one fresh `VoiceMessage`, transcribed once; nothing else touches
   * the cache or the bucket.
   */
  method VoiceHandler(allow: AllowList, db: TranscriptTable, store: ObjectStore,
                      chatId: int, duration: int, fileId: string, voiceId: string, maxDuration: int,
                      lookup: int -> MemberLookup, short: ShortResponse, responses: seq<PollResponse>)
    returns (action: VoiceAction, presenceChecked: bool, reply: Option<string>)
    requires RetriesAmount <= |responses|
    modifies db, store
    ensures presenceChecked <==> chatId in allow.channels
    ensures action == VoiceGate(chatId in allow.channels, presenceChecked && Presence(allow.users, lookup),
                                duration, maxDuration)
    ensures action != Transcribe ==>
              db.rows == old(db.rows) && store.log == old(store.log) && store.objects == old(store.objects)
    ensures action == Ignore ==> reply == None
    ensures action == RefuseTooLong ==> reply == Some(TooLong)
    ensures action == Transcribe ==>
              var run := Orchestrate(old(db.rows), voiceId, fileId, duration, None, short, responses);
              && db.rows == run.rows
              && store.log == old(store.log) + run.ops
              && store.objects == ApplyOps(old(store.objects), run.ops)
              && reply == Some(ReplyText(run.text))
  {
    var listed := chatId in allow.channels;
    var present := false;
    presenceChecked := false;
    if listed {
      presenceChecked := true;
      present := PresenceCheck(allow.users, lookup);
    }
    action := VoiceGate(listed, present, duration, maxDuration);
    reply := None;
    if action == RefuseTooLong {
      reply := Some(TooLong);
    } else if action == Transcribe {
      var voice := new VoiceMessage(duration, fileId, voiceId);
      var text, _ := voice.Transcribe(db, store, short, responses);
      reply := Some(text);
    }
  }
}
