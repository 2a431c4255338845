# Voice-message transcription bot: a Dafny model

This project models the transcription workflow of a Telegram bot that turns voice messages
into text with a speech recognizer. What is modelled:

- `VoiceMessage` and its workflow. It looks the clip up in the transcript cache. On a miss it
  picks the short, synchronous recognizer for clips under 30 seconds and the long-running
  recognizer otherwise. The long path stages the clip in an object-storage bucket under
  `{file_id}.oga`, polls the job at most 15 times and deletes the staged object. The workflow
  then inserts a cache row and picks the reply text.
- The allow-lists of users and chats, the check that an allowed user is still in a chat, and
  the two message handlers: the start command and the voice handler.

The remote parts are inputs:
- the short recognizer's answer is a `ShortResponse`;
- the job's status answers are a sequence of `PollResponse`s;
- Telegram's chat-member lookup is a function from user id to `MemberLookup`.

The state is explicit:
- the cache table is a class holding a sequence of rows (`Cache.TranscriptTable`);
- the bucket is a class holding a set of keys and a log of requests (`Storage.ObjectStore`);
- the allow-lists are a class holding two sequences (`Access.AllowList`);
- the clip is a class whose one mutable field is `transcribedText` (`Voice.VoiceMessage`).

Each state-changing method is specified against a pure function of the old state. The main one
is `Voice.Orchestrate`, the specification of the whole `transcribe` call. The properties of the
workflow are lemmas about these functions.

Modules: `Wrappers` (Option), `Text` (Python's `str.strip`), `Cache`, `Storage`,
`Recognition`, `Access`, `Voice` and `Handlers`.

Behaviour of the code that the model keeps as it is:
- A cache row is inserted after every miss, even when the text is still `None`.
- The table has no unique key, and nothing rejects a second row for the same voice id. A lookup
  returns the first matching row.
- Together these mean that once a `None` row exists for a clip, every later lookup returns that
  row. The clip is then recognized again on every delivery and never served from the cache. This
  is proved as `Voice.NullRowShadowsLaterRows`.

One branch follows the intended behaviour instead of the code: when the retries run out, the
code raises before it deletes the staged object (see Findings). `TranscribeLongAsWritten` models
that branch as written. `TranscribeLong`, and through it `Orchestrate`, `Transcribe` and
`VoiceHandler`, model the corrected branch, which deletes the object.

## Model

| member | source | states |
|---|---|---|
| `Text.Strip` | listener_bot/utils.py:212 | the stripped transcript has no whitespace (in Python's `isspace` sense) at either end and is no longer than its input |
| `Text.StripIsSlice` | listener_bot/utils.py:212 | `strip()` keeps one contiguous slice of its input and removes only whitespace before and after it |
| `Text.StripTrimmed` | listener_bot/utils.py:212 | a string with no whitespace at either end is returned unchanged |
| `Text.StripIdempotent` | listener_bot/utils.py:212 | stripping twice is the same as stripping once |
| `Text.StripDropsTrailingSpace` | listener_bot/utils.py:210-212 | the trailing space the join loop appends never survives the strip |
| `Cache.Lookup` | listener_bot/utils.py:276-290 | the lookup finds nothing exactly when no row has the voice id; otherwise it returns the value of the first row with that id, which may be NULL |
| `Cache.LookupAppend` | listener_bot/utils.py:292-297 | an insert never changes the answer for an id that already has a row; an absent id becomes answered by the new row |
| `Cache.LookupKeepsFirstRow` | listener_bot/utils.py:100-104 | without a unique constraint, rows inserted later never change the lookup of an id that already has a row |
| `Cache.TranscriptTable.Insert` | listener_bot/utils.py:295 | the insert appends exactly one row and does not check for an existing row |
| `Storage.ObjectKey` | listener_bot/utils.py:169-171 | the staging key is the file id followed by `.oga` |
| `Storage.ObjectKeyInjective` | listener_bot/utils.py:166-176 | different file ids give different keys, so two clips never share a staged object |
| `Storage.ApplyOps` | listener_bot/utils.py:169-176 | a key that no request touches keeps its presence or absence in the bucket |
| `Storage.ObjectStore.Put` | listener_bot/utils.py:169-171 | an upload adds the key and is logged |
| `Storage.ObjectStore.Remove` | listener_bot/utils.py:176 | a delete removes the key and is logged |
| `Recognition.ShortText` | listener_bot/utils.py:188-203 | the text after the short path: the recognizer's result on HTTP 200, the previous text on any other status |
| `Recognition.Joined` | listener_bot/utils.py:207-210 | the loop's accumulator: each chunk's text followed by one space, in chunk order |
| `Recognition.JoinLong` | listener_bot/utils.py:205-212 | the long transcript: the accumulator with Python's `strip()` applied |
| `Recognition.JoinLongTrimmed` | listener_bot/utils.py:205-212 | the long transcript has no surrounding whitespace, and zero chunks give `""` |
| `Recognition.JoinedIsSeparatedPlusSpace` | listener_bot/utils.py:207-210 | for at least one chunk, the loop's accumulator is the chunk texts separated by single spaces, plus one trailing space |
| `Recognition.JoinLongOfCleanChunks` | listener_bot/utils.py:205-212 | when every chunk text is non-empty and has no surrounding whitespace, the transcript is exactly the texts joined by single spaces |
| `Recognition.JoinLongIsStrippedSeparation` | listener_bot/utils.py:205-212 | for any non-empty list of chunks, the transcript is the chunk texts separated by single spaces and then stripped |
| `Recognition.JoinLongTwoPhrases` | listener_bot/utils.py:205-212 | two phrases such as "hello" and "world" give "hello world" |
| `Recognition.OutcomeFrom` | listener_bot/utils.py:249-269 | the poll loop completes at the first done answer, taking its chunks, with every earlier answer not done; it is exhausted exactly when none of the 15 answers is done |
| `Recognition.PollBound` | listener_bot/utils.py:249-269 | between 1 and 15 status requests are sent, and none after the first done answer |
| `Recognition.LongText` | listener_bot/utils.py:263-273 | the text after the long path: the joined chunks of the first done answer, the previous text when the retries run out |
| `Access.Appended` | listener_bot/utils.py:121-124 | after the append the entry is present, every old entry stays at its position, nothing else is added, and the list is unchanged exactly when the entry was already there |
| `Access.AppendedIdempotent` | listener_bot/utils.py:117-127 | a second add of the same chat changes nothing |
| `Access.AllowList.InitUsers` | listener_bot/utils.py:87-92 | the admin id is appended only if absent; the channels are untouched |
| `Access.AllowList.AddChannel` | listener_bot/utils.py:117-127 | the chat is appended only if absent, the users are untouched, and the message is "Channel already in allowed channels list" exactly when the chat was already listed |
| `Access.Presence` | listener_bot/utils.py:130-142 | the presence answer: users are tried in order, the first one the lookup finds decides by its status not being "left", and no user found gives false; a true answer always has a present user behind it |
| `Access.PresenceFirstFoundDecides` | listener_bot/utils.py:130-142 | the check holds exactly when some allowed user is found with a status other than "left" and every user before it was not found |
| `Access.PresenceCheck` | listener_bot/utils.py:130-142 | the early-return loop computes the presence specification: the first user found decides, and no user found gives false |
| `Voice.ReplyText` | listener_bot/utils.py:314-324 | the reply text: the apology for no text, "couldn't parse" for an empty text, the header followed by the text otherwise |
| `Voice.ReplyEndsWithTranscript` | listener_bot/utils.py:314-324 | the placeholder is always replaced by a non-empty text, and a transcript is always the tail of its reply |
| `Voice.CheckedText` | listener_bot/utils.py:275-290 | the text after `check_db`: the first matching row's value, NULL included, when a row exists; the previous text otherwise |
| `Voice.Orchestrate` | listener_bot/utils.py:300-312 | the whole `transcribe` call as a function of the state it starts from: a known text skips recognition; otherwise the short or the long path runs by duration and one row is appended; it gives the new text, rows, bucket requests and route (long path as corrected, see Findings) |
| `Voice.ReplyDistinguishesOutcomes` | listener_bot/utils.py:314-324 | the apology, the "couldn't parse" reply and the header-plus-text reply never coincide, and a transcript can be read back from its reply |
| `Voice.CacheHitSkipsRecognition` | listener_bot/utils.py:305-314 | a cached non-NULL text is served as is, with no recognizer call, no insert and no staging |
| `Voice.MissRunsOnePathAndInserts` | listener_bot/utils.py:305-312 | on a miss or a stored NULL, clips under 30 s run exactly the short path and others exactly the long path, and one row is appended even when the text stays `None` |
| `Voice.LongPathCleansUp` | listener_bot/utils.py:219-273 | corrected long path: it uploads `{file_id}.oga` first and deletes that same key exactly once, so it is gone afterwards; other routes touch no object |
| `Voice.RepeatServedFromCache` | listener_bot/utils.py:275-312 | after a true miss that produced text, the next delivery of the clip gets the same text from the cache, with no recognizer call and no new row |
| `Voice.FailedRecognitionIsRetried` | listener_bot/utils.py:305-312 | a failed recognition of a new clip stores a NULL row, and the next delivery runs a recognizer again |
| `Voice.NullRowShadowsLaterRows` | listener_bot/utils.py:288-295 | once a NULL row exists for a voice id, every later delivery recognizes again and the lookup still returns NULL |
| `Voice.ShortClipScenario` | listener_bot/utils.py:180-190 | clip "abc123" of 12 s with answer "привет" on HTTP 200 is transcribed, cached and replied to with the header and the text |
| `Voice.LongClipScenario` | listener_bot/utils.py:205-273 | clip "xyz999" of 90 s, done on the fourth poll with two phrases, gives the phrases joined by a space; `file-xyz.oga` is uploaded and deleted |
| `Voice.ExhaustedClipScenario` | listener_bot/utils.py:249-273 | corrected long path: a job that never finishes takes 15 polls, yields no text, stores a NULL row and gets the apology |
| `Voice.ExhaustedJobLeavesObjectStaged` | listener_bot/utils.py:271-273 | with the code as written, a job that is never done raises on the warning call and leaves the clip staged |
| `Voice.VoiceMessage.constructor` | listener_bot/utils.py:152-158 | a new message has no transcribed text |
| `Voice.VoiceMessage.UploadToObjectStorage` | listener_bot/utils.py:166-173 | the clip is uploaded under `{file_id}.oga` |
| `Voice.VoiceMessage.DeleteFromObjectStorage` | listener_bot/utils.py:175-178 | the object under that same key is deleted |
| `Voice.VoiceMessage.CheckDb` | listener_bot/utils.py:275-290 | the text is set from the first matching row only when a row exists, and is left alone otherwise |
| `Voice.VoiceMessage.AddToDb` | listener_bot/utils.py:292-298 | one row holding the voice id and the current text, `None` included, is appended |
| `Voice.VoiceMessage.TranscribeShort` | listener_bot/utils.py:180-203 | the text becomes the recognizer's result only on HTTP 200 and is unchanged otherwise |
| `Voice.VoiceMessage.JoinLongText` | listener_bot/utils.py:205-212 | the accumulating loop leaves the joined, stripped transcript in the text |
| `Voice.VoiceMessage.PollJob` | listener_bot/utils.py:249-269 | the loop sends one request per attempt up to the first done answer or 15 in all; on done it sets the text from the chunks, deletes the staged object once and breaks with retries below 15; otherwise it changes nothing |
| `Voice.VoiceMessage.CleanUpAfterRetries` | listener_bot/utils.py:271-273 | corrected exhaustion branch (see Findings): once all 15 retries are used the staged object is deleted; otherwise nothing happens |
| `Voice.VoiceMessage.TranscribeLong` | listener_bot/utils.py:219-273 | corrected long path: the staged key is uploaded and then deleted exactly once on both the done and the exhaustion branch; the text is the joined chunks when done and unchanged when exhausted |
| `Voice.VoiceMessage.TranscribeLongAsWritten` | listener_bot/utils.py:219-273 | long path as written: on exhaustion it raises and only the upload was sent, so the key stays in the bucket; on done the object is deleted |
| `Voice.VoiceMessage.Transcribe` | listener_bot/utils.py:300-324 | the new text, cache rows, bucket requests and route are exactly those `Orchestrate` gives for the old state; the reply is chosen from the final text |
| `Handlers.StartDecision` | main.py:18-37 | an unlisted chat and an unknown user are refused; an unlisted chat and an allowed user enroll the chat; a listed chat gets only "already serving"; the fall-through and the final `else` are unreachable |
| `Handlers.StartReply` | main.py:20-37 | the text reply of each decision: "cannot start" for a refusal, "already serving" for a listed chat, the bewildered reply for the final `else`, and none for an enroll, which greets with a voice note instead |
| `Handlers.EnrolledChatIsServed` | main.py:22-34 | after a chat is enrolled, any later start command there is answered "already serving" |
| `Handlers.StartCommand` | main.py:19-37 | only an enroll changes the channels, by appending the chat, and it sends the greeting; a refusal and "already serving" change no list; the users never change |
| `Handlers.VoiceGate` | main.py:44-49 | a clip is ignored when the chat is unlisted or no allowed user is present; it is refused when longer than the maximum duration; otherwise it is transcribed, a clip of exactly the maximum included |
| `Handlers.VoiceHandler` | main.py:41-52 | the presence check runs exactly when the chat is listed; a passing clip gets one fresh message whose single transcription changes the cache and bucket as `Orchestrate` says; no other outcome touches them |

## Findings

| source | as written | input that shows it | evidently intended | confidence | as-written member | corrected member |
|---|---|---|---|---|---|---|
| listener_bot/utils.py:271-273 | `logging.WARNING(...)` calls the integer level constant. This raises `TypeError` before `delete_from_object_storage` runs. | a long clip whose 15 status polls all answer `done: false` | log a warning, then delete the staged `{file_id}.oga` | high; not executed | `Voice.VoiceMessage.TranscribeLongAsWritten` (shown by `Voice.ExhaustedJobLeavesObjectStaged`) | `Voice.VoiceMessage.TranscribeLong` |

The rest of the model uses the corrected `TranscribeLong`. With the code as written, the
exception also escapes `transcribe`. No row is inserted and the placeholder reply is never
edited. That consequence is stated here only, not modelled.

## Left out

- Telegram calls are not modelled as calls:
  - The placeholder reply and the typing action at the start of `transcribe` are left out.
  - `edit_message_text` and `reply_to` become the returned reply text.
  - `send_greeting` (which reads a sound file) becomes the `greeted` flag.
  - `get_file_url` is left out.
  - `get_chat_member` becomes the `lookup` input. It gives one fixed answer per user.
- The clip download (`get_file`) and the object contents are not modelled. The bucket holds only keys.
- The job submission is not modelled: its request body (language, profanity filter, encoding), its response and the job id.
- The staging URI built with `os.path.join` is not modelled. It depends on host path rules.
- The 3-second sleep between polls is not modelled. Polls are counted, not timed.
- Parsing of provider payloads is not modelled.
  - A chunk is reduced to its `alternatives[0].text`.
  - The `KeyError`/`IndexError` paths of malformed answers are left out.
  - So is the exception `json.loads` raises when a non-200 short answer has no JSON body (line 200).
- The SQLite connection handling and the string-built SQL at lines 278-282 are not modelled. That SQL breaks on a voice id containing a quote. The table is a sequence of rows, and "first matching row" assumes SQLite returns rows in insertion order.
- Reading and writing `allowed.json` (`get_allowed_users_and_channels`, and the file writes in `add_channels` and `init_users`) are not modelled. The lists live in memory.
- The YAML configuration and module globals are not modelled. `MAX_DURATION` is the `maxDuration` parameter and `BUCKET_NAME` is `ObjectStore.bucket`.
- `init_object_storage`, `init_database`, the logging setup, `main` and `bot.polling` are not modelled. They are start-up plumbing.
- Logging calls are not modelled. Only their absence of effect matters, except the faulty one under Findings.
- Concurrent handling of several messages is not modelled. Each call runs alone.
- Voice.Orchestrate, Voice.LongPathCleansUp and Voice.ExhaustedClipScenario (and so `Transcribe` and `VoiceHandler`): state the corrected exhaustion branch, which deletes the staged object, inserts a NULL row and replies with the apology. As written, line 272 raises, so the object stays staged, no row is inserted and the placeholder is never edited; only `TranscribeLongAsWritten` states that.
- Storage.ObjectStore.Put and Storage.ObjectStore.Remove always succeed, and every status poll yields an answer. In the code, a network error from `requests.post` or `requests.get` (lines 238, 255), a storage error from `delete_object` (line 176) or a poll body that is not JSON (line 260) escapes `transcribe_long` after the upload at line 221. The staged object then stays in the bucket and no row is inserted. `Voice.LongPathCleansUp` holds only because these failures are not modelled. The short path and the download fail the same way. A network error from `requests.post` in `transcribe_short` (line 183) or from `get_file` (line 161) also escapes `transcribe`. No row is inserted then, and the placeholder reply is never edited.
