/**
 * The speech recognizer's answers, pre-parsed, and what the bot makes of them: the short
 * (synchronous) answer, the long-running job's status polls, and the long transcript built from
 * the finished job's chunks.
 */
module Recognition {
  import opened Wrappers
  import opened Text

  /** Clips shorter than this many seconds take the short path. */
  const ShortLimit: int := 30

  /** `retries_amount`: the most status polls one long-running job gets. */
  const RetriesAmount: nat := 15

  /** The only HTTP status the short path accepts. */
  const HttpOk: int := 200

  /** Answer of `POST .../stt:recognize`: HTTP status and, on success, the `result` field. */
  datatype ShortResponse = ShortResponse(status: int, result: string)

  /** One element of `response.chunks`, reduced to `alternatives[0].text`. */
  datatype Chunk = Chunk(text: string)

  /** Answer of one `GET .../operations/{id}`: the `done` flag and, when done, the chunks. */
  datatype PollResponse = PollResponse(done: bool, chunks: seq<Chunk>)

  /** How the poll loop ended: at a done answer after `polls` requests, or with every retry used. */
  datatype LongOutcome = Completed(polls: nat, chunks: seq<Chunk>) | Exhausted

  /** `transcribed_text` after `transcribe_short`: set to the result only on HTTP 200, otherwise kept. */
  function ShortText(prev: Option<string>, resp: ShortResponse): Option<string>
  {
    if resp.status == HttpOk then Some(resp.result) else prev
  }

  /** The accumulator of `join_long_text`: each chunk's text followed by one space, in order. */
  function Joined(chunks: seq<Chunk>): string
  {
    if chunks == [] then ""
    else Joined(chunks[..|chunks| - 1]) + chunks[|chunks| - 1].text + " "
  }

  /** `join_long_text`'s transcript: the accumulator with surrounding whitespace stripped. */
  function JoinLong(chunks: seq<Chunk>): string
  {
    Strip(Joined(chunks))
  }

  /** The long transcript has no whitespace at either end, and no chunks give the empty string. */
  lemma JoinLongTrimmed(chunks: seq<Chunk>)
    ensures Trimmed(JoinLong(chunks))
    ensures chunks == [] ==> JoinLong(chunks) == ""
  {
  }

  /** Reference definition: the chunk texts separated by single spaces. */
  function SpaceSeparated(chunks: seq<Chunk>): string
    requires chunks != []
  {
    if |chunks| == 1 then chunks[0].text
    else SpaceSeparated(chunks[..|chunks| - 1]) + " " + chunks[|chunks| - 1].text
  }

  /** A recognizer phrase with text and no surrounding whitespace. */
  predicate CleanPhrase(t: string)
  {
    t != [] && Trimmed(t)
  }

  lemma {:induction false} JoinedIsSeparatedPlusSpace(chunks: seq<Chunk>)
    requires chunks != []
    ensures Joined(chunks) == SpaceSeparated(chunks) + " "
  {
    var init, last := chunks[..|chunks| - 1], chunks[|chunks| - 1];
    if |chunks| == 1 {
      assert init == [];
    } else {
      JoinedIsSeparatedPlusSpace(init);
      assert Joined(chunks) == (SpaceSeparated(init) + " ") + last.text + " ";
    }
  }

  lemma {:induction false} SpaceSeparatedEnds(chunks: seq<Chunk>)
    requires chunks != []
    requires forall i :: 0 <= i < |chunks| ==> CleanPhrase(chunks[i].text)
    ensures CleanPhrase(SpaceSeparated(chunks))
    ensures chunks[0].text != [] && SpaceSeparated(chunks)[0] == chunks[0].text[0]
  {
    assert CleanPhrase(chunks[0].text);
    if |chunks| > 1 {
      var init := chunks[..|chunks| - 1];
      SpaceSeparatedEnds(init);
      assert init[0] == chunks[0];
    }
  }

  /**
   * For any chunks at all, the long transcript is the chunk texts separated by single spaces and
   * then stripped: the trailing space the loop appends is always removed.
   */
  lemma JoinLongIsStrippedSeparation(chunks: seq<Chunk>)
    requires chunks != []
    ensures JoinLong(chunks) == Strip(SpaceSeparated(chunks))
  {
    JoinedIsSeparatedPlusSpace(chunks);
    StripDropsTrailingSpace(SpaceSeparated(chunks), ' ');
  }

  /**
   * When every chunk carries a clean phrase, the long transcript is exactly those phrases joined
   * by single spaces: the trailing space the loop adds is the only whitespace `strip()` removes.
   */
  lemma JoinLongOfCleanChunks(chunks: seq<Chunk>)
    requires chunks != []
    requires forall i :: 0 <= i < |chunks| ==> CleanPhrase(chunks[i].text)
    ensures JoinLong(chunks) == SpaceSeparated(chunks)
  {
    JoinLongIsStrippedSeparation(chunks);
    SpaceSeparatedEnds(chunks);
    StripTrimmed(SpaceSeparated(chunks));
  }

  /** Two phrases, such as "hello" and "world", come out as "hello world". */
  lemma JoinLongTwoPhrases(first: string, second: string)
    requires CleanPhrase(first) && CleanPhrase(second)
    ensures JoinLong([Chunk(first), Chunk(second)]) == first + " " + second
  {
    var chunks := [Chunk(first), Chunk(second)];
    JoinLongOfCleanChunks(chunks);
    assert chunks[..1] == [Chunk(first)];
  }

  /** The poll loop from attempt `i` on: the first done answer among attempts `i` to 14, if any. */
  function OutcomeFrom(responses: seq<PollResponse>, i: nat): (o: LongOutcome)
    requires i <= RetriesAmount <= |responses|
    ensures o.Completed? ==>
              && i < o.polls <= RetriesAmount
              && responses[o.polls - 1].done
              && o.chunks == responses[o.polls - 1].chunks
              && forall j :: i <= j < o.polls - 1 ==> !responses[j].done
    ensures o.Exhausted? <==> forall j :: i <= j < RetriesAmount ==> !responses[j].done
    decreases RetriesAmount - i
  {
    if i == RetriesAmount then Exhausted
    else if responses[i].done then Completed(i + 1, responses[i].chunks)
    else OutcomeFrom(responses, i + 1)
  }

  /** The outcome of the whole poll loop; `responses[k]` is the answer to the (k+1)-th poll. */
  function PollOutcome(responses: seq<PollResponse>): LongOutcome
    requires RetriesAmount <= |responses|
  {
    OutcomeFrom(responses, 0)
  }

  /** Number of status requests the loop sends: up to the first done answer, or all fifteen. */
  function PollCount(o: LongOutcome): nat
  {
    match o
    case Completed(polls, _) => polls
    case Exhausted => RetriesAmount
  }

  /** At most fifteen polls, and the loop stops at the first done answer. */
  lemma PollBound(responses: seq<PollResponse>)
    requires RetriesAmount <= |responses|
    ensures 1 <= PollCount(PollOutcome(responses)) <= RetriesAmount
    ensures PollOutcome(responses).Completed? ==>
              forall j :: 0 <= j < PollCount(PollOutcome(responses)) - 1 ==> !responses[j].done
  {
  }

  /** `transcribed_text` after the long path: the joined chunks when done, unchanged on exhaustion. */
  function LongText(prev: Option<string>, o: LongOutcome): Option<string>
  {
    match o
    case Completed(_, chunks) => Some(JoinLong(chunks))
    case Exhausted => prev
  }
}
