/**
 * `VoiceMessage`: one inbound voice clip and its transcription workflow. The cache lookup, the
 * choice between the short and the long recognizer, the staging of the clip for the long one, the
 * unconditional cache insert after a miss, and the reply chosen from the resulting text.
 */
module Voice {
  import opened Wrappers
  import opened Cache
  import opened Storage
  import opened Recognition

  const Header: string := "Вот что было сказанно в войсе\n\n"
  const CannotParse: string := "Не удалось разобрать :("

  /**
   * One sentence, written as two literals because the verifier does not unfold a literal this long,
   * and `ReplyDistinguishesOutcomes` needs its first character.
   */
  const Apology: string := "Сорри, я ушной или с твоим голосом " + "что-то не так, что моя нейросетка не понимает"

  /** The final text of the bot's reply for the clip's transcript. */
  function ReplyText(text: Option<string>): string
  {
    match text
    case None => Apology
    case Some(t) => (if |t| > 0 then Header else CannotParse) + t
  }

  /** The placeholder is always replaced by some text, and a transcript is always the tail of its reply. */
  lemma ReplyEndsWithTranscript(text: Option<string>)
    ensures ReplyText(text) != []
    ensures text.Some? ==> |text.value| <= |ReplyText(text)|
    ensures text.Some? ==> ReplyText(text)[|ReplyText(text)| - |text.value|..] == text.value
  {
  }

  /** The three reply shapes never coincide, and a non-empty transcript is recoverable from its reply. */
  lemma ReplyDistinguishesOutcomes(a: Option<string>, b: Option<string>)
    requires ReplyText(a) == ReplyText(b)
    ensures a == b
  {
    assert Header[0] == 'В' && CannotParse[0] == 'Н' && Apology[0] == 'С';
    match a
    case None =>
      assert ReplyText(b)[0] == 'С';
    case Some(t) =>
      if |t| > 0 {
        assert ReplyText(b)[0] == 'В';
        assert b.Some? && |b.value| > 0;
        assert t == ReplyText(a)[|Header|..] == ReplyText(b)[|Header|..] == b.value;
      } else {
        assert ReplyText(a) == CannotParse;
        assert ReplyText(b)[0] == 'Н';
      }
  }

  /** Which recognizer a transcription used; `Skipped` when the text was already known. */
  datatype Route = Skipped | ShortPath | LongPath(polls: nat)

  /** Everything one transcription changes: the text, the cache rows, the store requests, the route. */
  datatype Run = Run(text: Option<string>, rows: seq<Row>, ops: seq<StoreOp>, route: Route)

  /** `transcribed_text` after `check_db`: the first row's value when a row exists, otherwise unchanged. */
  function CheckedText(rows: seq<Row>, voiceId: string, text: Option<string>): Option<string>
  {
    match Lookup(rows, voiceId)
    case Some(stored) => stored
    case None => text
  }

  /** Specification of `transcribe` up to the reply, as a function of the state it starts from. */
  function Orchestrate(rows: seq<Row>, voiceId: string, fileId: string, duration: int, text: Option<string>,
                       short: ShortResponse, responses: seq<PollResponse>): Run
    requires RetriesAmount <= |responses|
  {
    var checked := CheckedText(rows, voiceId, text);
    if checked.Some? then Run(checked, rows, [], Skipped)
    else if duration < ShortLimit then
      var t := ShortText(checked, short);
      Run(t, rows + [Row(voiceId, t)], [], ShortPath)
    else
      var o := PollOutcome(responses);
      var t := LongText(checked, o);
      var key := ObjectKey(fileId);
      Run(t, rows + [Row(voiceId, t)], [Upload(key), Delete(key)], LongPath(PollCount(o)))
  }

  /** A cached non-null transcript is served as is: no recognizer, no insert, no staged object. */
  lemma CacheHitSkipsRecognition(rows: seq<Row>, voiceId: string, fileId: string, duration: int, text: Option<string>,
                                 short: ShortResponse, responses: seq<PollResponse>, t: string)
    requires RetriesAmount <= |responses|
    requires Lookup(rows, voiceId) == Some(Some(t))
    ensures Orchestrate(rows, voiceId, fileId, duration, text, short, responses) == Run(Some(t), rows, [], Skipped)
  {
  }

  /**
   * With no text yet and no usable row (none at all, or one holding NULL), exactly one recognizer
   * runs: the short one below thirty seconds, the long one from thirty on. Exactly one row is then
   * appended, holding whatever text resulted, NULL included.
   */
  lemma MissRunsOnePathAndInserts(rows: seq<Row>, voiceId: string, fileId: string, duration: int,
                                  short: ShortResponse, responses: seq<PollResponse>)
    requires RetriesAmount <= |responses|
    requires Lookup(rows, voiceId) in {None, Some(None)}
    ensures var run := Orchestrate(rows, voiceId, fileId, duration, None, short, responses);
      && run.rows == rows + [Row(voiceId, run.text)]
      && (duration < ShortLimit <==> run.route == ShortPath)
      && (duration >= ShortLimit <==> run.route.LongPath?)
      && (run.route == ShortPath ==> run.ops == [] && (run.text.Some? <==> short.status == HttpOk))
      && (run.route.LongPath? ==> (run.text.Some? <==> PollOutcome(responses).Completed?))
  {
  }

  /**
   * The long path deletes exactly the key it uploaded, exactly once, so no staged object survives
   * the call, whether the job finished or the retries ran out.
   */
  lemma {:induction false} LongPathCleansUp(rows: seq<Row>, voiceId: string, fileId: string, duration: int,
                                            text: Option<string>, short: ShortResponse,
                                            responses: seq<PollResponse>, objects: set<string>)
    requires RetriesAmount <= |responses|
    ensures var run, key := Orchestrate(rows, voiceId, fileId, duration, text, short, responses), ObjectKey(fileId);
      && (run.route.LongPath? ==>
            && DeleteCount(run.ops, key) == 1
            && run.ops[0] == Upload(key)
            && ApplyOps(objects, run.ops) == objects - {key})
      && (!run.route.LongPath? ==> run.ops == [] && ApplyOps(objects, run.ops) == objects)
  {
    var run, key := Orchestrate(rows, voiceId, fileId, duration, text, short, responses), ObjectKey(fileId);
    if run.route.LongPath? {
      var ops := run.ops;
      assert ops == [Upload(key), Delete(key)];
      assert ops[..1] == [Upload(key)] && ops[..1][..0] == [];
      assert DeleteCount(ops[..1], key) == 0;
      assert ApplyOps(objects, ops[..1]) == objects + {key};
    }
  }

  /**
   * A clip that was a true miss and got a transcript is served from the cache on the next call:
   * same text, no recognizer, no new row, whatever the recognizer would answer this time.
   */
  lemma RepeatServedFromCache(rows: seq<Row>, voiceId: string, fileId: string, duration: int,
                              short: ShortResponse, responses: seq<PollResponse>,
                              fileId': string, duration': int, short': ShortResponse, responses': seq<PollResponse>)
    requires RetriesAmount <= |responses| && RetriesAmount <= |responses'|
    requires Lookup(rows, voiceId) != Some(None)
    requires Orchestrate(rows, voiceId, fileId, duration, None, short, responses).text.Some?
    ensures var first := Orchestrate(rows, voiceId, fileId, duration, None, short, responses);
      Orchestrate(first.rows, voiceId, fileId', duration', None, short', responses')
        == Run(first.text, first.rows, [], Skipped)
  {
    var first := Orchestrate(rows, voiceId, fileId, duration, None, short, responses);
    if Lookup(rows, voiceId).None? {
      LookupAppend(rows, Row(voiceId, first.text), voiceId);
    }
  }

  /**
   * A clip never seen before whose recognition failed leaves a NULL row, and the next call for it
   * runs a recognizer again instead of being served from the cache.
   */
  lemma FailedRecognitionIsRetried(rows: seq<Row>, voiceId: string, fileId: string, duration: int,
                                   short: ShortResponse, responses: seq<PollResponse>,
                                   fileId': string, duration': int, short': ShortResponse, responses': seq<PollResponse>)
    requires RetriesAmount <= |responses| && RetriesAmount <= |responses'|
    requires Lookup(rows, voiceId).None?
    requires Orchestrate(rows, voiceId, fileId, duration, None, short, responses).text.None?
    ensures var first := Orchestrate(rows, voiceId, fileId, duration, None, short, responses);
      && first.rows == rows + [Row(voiceId, None)]
      && Orchestrate(first.rows, voiceId, fileId', duration', None, short', responses').route != Skipped
  {
    var first := Orchestrate(rows, voiceId, fileId, duration, None, short, responses);
    LookupAppend(rows, Row(voiceId, None), voiceId);
  }

  /**
   * Because the insert happens even when the text is NULL and the lookup returns the first row,
   * once a NULL row exists for a voice id every later call recognizes again and appends another
   * row, and a later successful transcript is never served from the cache.
   */
  lemma NullRowShadowsLaterRows(rows: seq<Row>, voiceId: string, fileId: string, duration: int,
                                short: ShortResponse, responses: seq<PollResponse>, later: seq<Row>)
    requires RetriesAmount <= |responses|
    requires Lookup(rows, voiceId) == Some(None)
    ensures var run := Orchestrate(rows + later, voiceId, fileId, duration, None, short, responses);
      && run.route != Skipped
      && Lookup(run.rows, voiceId) == Some(None)
  {
    LookupKeepsFirstRow(rows, later, voiceId);
    var run := Orchestrate(rows + later, voiceId, fileId, duration, None, short, responses);
    LookupKeepsFirstRow(rows + later, [Row(voiceId, run.text)], voiceId);
  }

  /** Clip "abc123", 12 seconds, recognizer answers "привет": the reply carries it and it is cached. */
  lemma ShortClipScenario(rows: seq<Row>, responses: seq<PollResponse>)
    requires RetriesAmount <= |responses|
    requires Lookup(rows, "abc123").None?
    ensures var run := Orchestrate(rows, "abc123", "file-abc", 12, None, ShortResponse(200, "привет"), responses);
      && run == Run(Some("привет"), rows + [Row("abc123", Some("привет"))], [], ShortPath)
      && ReplyText(run.text) == Header + "привет"
  {
  }

  /**
   * Clip "xyz999", 90 seconds, three pending polls and then a done answer with two phrases (say
   * "hello" and "world"): the transcript is the phrases joined by a space ("hello world"), found
   * after four polls, and the staged object is uploaded and deleted.
   */
  lemma LongClipScenario(rows: seq<Row>, responses: seq<PollResponse>, first: string, second: string)
    requires RetriesAmount <= |responses|
    requires Lookup(rows, "xyz999").None?
    requires CleanPhrase(first) && CleanPhrase(second)
    requires !responses[0].done && !responses[1].done && !responses[2].done
    requires responses[3] == PollResponse(true, [Chunk(first), Chunk(second)])
    ensures var run := Orchestrate(rows, "xyz999", "file-xyz", 90, None, ShortResponse(200, ""), responses);
      && run.text == Some(first + " " + second)
      && run.route == LongPath(4)
      && run.ops == [Upload("file-xyz.oga"), Delete("file-xyz.oga")]
  {
    JoinLongTwoPhrases(first, second);
    assert PollOutcome(responses) == Completed(4, [Chunk(first), Chunk(second)]);
    assert ObjectKey("file-xyz") == "file-xyz.oga";
  }

  /** Clip "lost1", 120 seconds, a job that never finishes: fifteen polls, no text, the apology. */
  lemma ExhaustedClipScenario(rows: seq<Row>, responses: seq<PollResponse>)
    requires RetriesAmount <= |responses|
    requires Lookup(rows, "lost1").None?
    requires forall j :: 0 <= j < RetriesAmount ==> !responses[j].done
    ensures var run := Orchestrate(rows, "lost1", "file-lost", 120, None, ShortResponse(200, "unused"), responses);
      && run.text == None
      && run.route == LongPath(RetriesAmount)
      && run.rows == rows + [Row("lost1", None)]
      && ReplyText(run.text) == Apology
  {
  }

  /** A clip being transcribed. `transcribed_text` is the only field the workflow updates. */
  class VoiceMessage {
    const duration: int
    const fileId: string
    const voiceId: string
    var transcribedText: Option<string>

    constructor (duration: int, fileId: string, voiceId: string)
      ensures this.duration == duration && this.fileId == fileId && this.voiceId == voiceId
      ensures transcribedText == None
    {
      this.duration := duration;
      this.fileId := fileId;
      this.voiceId := voiceId;
      transcribedText := None;
    }

    /** `upload_to_object_storage`: the clip is stored under `{file_id}.oga`. */
    method UploadToObjectStorage(store: ObjectStore)
      modifies store
      ensures store.objects == old(store.objects) + {ObjectKey(fileId)}
      ensures store.log == old(store.log) + [Upload(ObjectKey(fileId))]
    {
      store.Put(ObjectKey(fileId));
    }

    /** `delete_from_object_storage`: the object under the same key is deleted. */
    method DeleteFromObjectStorage(store: ObjectStore)
      modifies store
      ensures store.objects == old(store.objects) - {ObjectKey(fileId)}
      ensures store.log == old(store.log) + [Delete(ObjectKey(fileId))]
    {
      store.Remove(ObjectKey(fileId));
    }

    /** `check_db`: the text is set only when the table has a row for this voice id. */
    method CheckDb(db: TranscriptTable)
      modifies this
      ensures transcribedText == CheckedText(db.rows, voiceId, old(transcribedText))
    {
      var found := Lookup(db.rows, voiceId);
      if found.Some? {
        transcribedText := found.value;
      }
    }

    /** `add_to_db`: one row with the current text, even when that text is `None`. */
    method AddToDb(db: TranscriptTable)
      modifies db
      ensures db.rows == old(db.rows) + [Row(voiceId, transcribedText)]
    {
      db.Insert(voiceId, transcribedText);
    }

    /** `transcribe_short`: the text becomes the recognizer's result on HTTP 200 and is kept otherwise. */
    method TranscribeShort(resp: ShortResponse)
      modifies this
      ensures resp.status == HttpOk ==> transcribedText == Some(resp.result)
      ensures resp.status != HttpOk ==> transcribedText == old(transcribedText)
    {
      if resp.status == HttpOk {
        transcribedText := Some(resp.result);
      }
    }

    /** `join_long_text`: accumulate each chunk's text and a space, then strip. */
    method JoinLongText(chunks: seq<Chunk>)
      modifies this
      ensures transcribedText == Some(JoinLong(chunks))
    {
      var longText := "";
      for i := 0 to |chunks|
        invariant longText == Joined(chunks[..i])
      {
        assert chunks[..i + 1][..i] == chunks[..i];
        longText := longText + chunks[i].text + " ";
      }
      assert chunks[..|chunks|] == chunks;
      transcribedText := Some(Text.Strip(longText));
    }

    /**
     * The status-poll loop of `transcribe_long`: at most fifteen polls; at the first done answer
     * the text is joined from its chunks, the staged object is deleted and the loop breaks with
     * `retries` still below fifteen.
     */
    method PollJob(store: ObjectStore, responses: seq<PollResponse>) returns (retries: nat, polls: nat)
      requires RetriesAmount <= |responses|
      modifies this, store
      ensures retries < RetriesAmount <==> PollOutcome(responses).Completed?
      ensures polls == PollCount(PollOutcome(responses))
      ensures transcribedText == LongText(old(transcribedText), PollOutcome(responses))
      ensures retries < RetriesAmount ==>
                store.objects == old(store.objects) - {ObjectKey(fileId)}
                && store.log == old(store.log) + [Delete(ObjectKey(fileId))]
      ensures retries >= RetriesAmount ==> store.objects == old(store.objects) && store.log == old(store.log)
    {
      retries, polls := 0, 0;
      while retries < RetriesAmount
        invariant retries <= RetriesAmount && polls == retries
        invariant forall j :: 0 <= j < retries ==> !responses[j].done
        invariant transcribedText == old(transcribedText)
        invariant store.objects == old(store.objects) && store.log == old(store.log)
      {
        var results := responses[retries];
        polls := polls + 1;
        if results.done {
          JoinLongText(results.chunks);
          DeleteFromObjectStorage(store);
          break;
        }
        retries := retries + 1;
      }
    }

    /**
     * `transcribe_long` as intended: stage the clip, poll, and delete the staged object on the done
     * branch and, after a warning, on the exhaustion branch, so it is deleted exactly once.
     */
    method TranscribeLong(store: ObjectStore, responses: seq<PollResponse>) returns (polls: nat)
      requires RetriesAmount <= |responses|
      modifies this, store
      ensures polls == PollCount(PollOutcome(responses))
      ensures transcribedText == LongText(old(transcribedText), PollOutcome(responses))
      ensures store.objects == old(store.objects) - {ObjectKey(fileId)}
      ensures store.log == old(store.log) + [Upload(ObjectKey(fileId)), Delete(ObjectKey(fileId))]
    {
      UploadToObjectStorage(store);
      var retries;
      retries, polls := PollJob(store, responses);
      CleanUpAfterRetries(store, retries);
    }

    /**
     * The corrected exhaustion branch (see the finding on `TranscribeLongAsWritten`): once every
     * retry is used, a warning is logged and the staged object deleted.
     */
    method CleanUpAfterRetries(store: ObjectStore, retries: nat)
      modifies store
      ensures retries >= RetriesAmount ==>
                store.objects == old(store.objects) - {ObjectKey(fileId)}
                && store.log == old(store.log) + [Delete(ObjectKey(fileId))]
      ensures retries < RetriesAmount ==> store.objects == old(store.objects) && store.log == old(store.log)
    {
      if retries >= RetriesAmount {
        DeleteFromObjectStorage(store);
      }
    }

    /**
     * `transcribe_long` as written: on exhaustion the warning call raises (it calls the integer
     * `logging.WARNING`) before the delete, so the staged object is left behind.
     */
    method TranscribeLongAsWritten(store: ObjectStore, responses: seq<PollResponse>) returns (polls: nat, raised: bool)
      requires RetriesAmount <= |responses|
      modifies this, store
      ensures polls == PollCount(PollOutcome(responses))
      ensures transcribedText == LongText(old(transcribedText), PollOutcome(responses))
      ensures raised <==> PollOutcome(responses).Exhausted?
      ensures raised ==>
                store.objects == old(store.objects) + {ObjectKey(fileId)}
                && store.log == old(store.log) + [Upload(ObjectKey(fileId))]
      ensures !raised ==>
                store.objects == old(store.objects) - {ObjectKey(fileId)}
                && store.log == old(store.log) + [Upload(ObjectKey(fileId)), Delete(ObjectKey(fileId))]
    {
      ghost var key := ObjectKey(fileId);
      UploadToObjectStorage(store);
      ghost var uploaded := store.log;
      assert key in store.objects;
      var retries;
      retries, polls := PollJob(store, responses);
      raised := retries >= RetriesAmount;
      if !raised {
        assert store.log == uploaded + [Delete(key)];
      }
    }

    /**
     * `transcribe`: look the clip up; on a miss run exactly one recognizer, chosen by duration, and
     * insert whatever text results; then reply from the text.
     */
    method Transcribe(db: TranscriptTable, store: ObjectStore, short: ShortResponse, responses: seq<PollResponse>)
      returns (reply: string, route: Route)
      requires RetriesAmount <= |responses|
      modifies this, db, store
      ensures var run := Orchestrate(old(db.rows), voiceId, fileId, duration, old(transcribedText), short, responses);
        && transcribedText == run.text
        && db.rows == run.rows
        && store.log == old(store.log) + run.ops
        && store.objects == ApplyOps(old(store.objects), run.ops)
        && route == run.route
        && reply == ReplyText(run.text)
    {
      CheckDb(db);
      route := Skipped;
      if transcribedText == None {
        if duration < ShortLimit {
          TranscribeShort(short);
          route := ShortPath;
        } else {
          var polls := TranscribeLong(store, responses);
          route := LongPath(polls);
        }
        AddToDb(db);
      }
      reply := ReplyText(transcribedText);
    }
  }

  /**
   * A job that never reports done, run through `transcribe_long` as written: the call raises and
   * the clip stays staged in the bucket.
   */
  method ExhaustedJobLeavesObjectStaged() returns (leaked: bool)
    ensures leaked
  {
    var store := new ObjectStore("listener-bot", {});
    var voice := new VoiceMessage(120, "file-lost", "lost1");
    var pending := seq(RetriesAmount, _ => PollResponse(false, []));
    var _, raised := voice.TranscribeLongAsWritten(store, pending);
    leaked := raised && ObjectKey("file-lost") in store.objects;
  }
}
