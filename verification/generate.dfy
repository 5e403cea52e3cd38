/**
 * Post indexing (plugins/generate.py): the record `index_post` builds for a
 * channel message, and `/generate`, which empties the post collection and
 * re-indexes every configured channel while counting posts and errors.
 */
module Generate {
  import opened Common
  import opened Strings
  import Platform

  datatype FileType = Video | Document | Audio | Photo

  /** The name stored under "file_type". */
  function FileTypeName(t: FileType): string
  {
    match t
    case Video => "video"
    case Document => "document"
    case Audio => "audio"
    case Photo => "photo"
  }

  /**
   * What `index_post` reads off a message. `captionHtml` is the caption's
   * HTML rendering when the message has a caption; `hasMedia` is the truth
   * of `msg.media`; each media field holds that attachment's `file_id`.
   */
  datatype Message = Message(
    id: int,
    chat: int,
    captionHtml: Option<string>,
    date: int,
    hasMedia: bool,
    video: Option<string>,
    document: Option<string>,
    audio: Option<string>,
    photo: Option<string>)

  /** A document of the "Posts" collection. */
  datatype Post = Post(id: int, chat: int, caption: string, fileType: Option<FileType>, fileId: Option<string>, date: int)

  /** No attachment of the four kinds index_post looks at. */
  predicate NoMedia(m: Message)
  {
    m.video.None? && m.document.None? && m.audio.None? && m.photo.None?
  }

  /** `index_post`'s record: the identifying fields copied, then the first present of video, document, audio, photo. */
  function IndexPost(m: Message): (p: Post)
    ensures p.id == m.id && p.chat == m.chat && p.date == m.date
    ensures p.caption == (if m.captionHtml.Some? then m.captionHtml.value else "")
    ensures p.fileType.None? <==> NoMedia(m)
    ensures p.fileId.None? <==> NoMedia(m)
    ensures p.fileType == Some(Video) <==> m.video.Some?
    ensures p.fileType == Some(Document) <==> m.video.None? && m.document.Some?
    ensures p.fileType == Some(Audio) <==> m.video.None? && m.document.None? && m.audio.Some?
    ensures p.fileType == Some(Photo) <==> m.video.None? && m.document.None? && m.audio.None? && m.photo.Some?
    ensures p.fileType == Some(Video) ==> p.fileId == m.video
    ensures p.fileType == Some(Document) ==> p.fileId == m.document
    ensures p.fileType == Some(Audio) ==> p.fileId == m.audio
    ensures p.fileType == Some(Photo) ==> p.fileId == m.photo
  {
    var base := Post(m.id, m.chat, if m.captionHtml.Some? then m.captionHtml.value else "", None, None, m.date);
    if m.video.Some? then base.(fileType := Some(Video), fileId := m.video)
    else if m.document.Some? then base.(fileType := Some(Document), fileId := m.document)
    else if m.audio.Some? then base.(fileType := Some(Audio), fileId := m.audio)
    else if m.photo.Some? then base.(fileType := Some(Photo), fileId := m.photo)
    else base
  }

  /** A higher-priority attachment hides every lower one: with a video present, the rest do not matter. */
  lemma VideoHidesOtherMedia(m: Message, document: Option<string>, audio: Option<string>, photo: Option<string>)
    requires m.video.Some?
    ensures IndexPost(m.(document := document, audio := audio, photo := photo)) == IndexPost(m)
  {
  }

  /** The filter of `/generate`: `msg.media or msg.document`. */
  predicate Indexable(m: Message)
  {
    m.hasMedia || m.document.Some?
  }

  /** One message yielded by `search_messages`, with whether its `insert_one` succeeded. */
  datatype Attempt = Attempt(msg: Message, insertOk: bool)

  /**
   * One channel's pass: the messages yielded before the pass stopped, and
   * whether it stopped by raising (the status edit or the message fetch
   * failing) rather than by running out of messages. `notice` is what the
   * error message to the first admin raises, if anything; it is sent only
   * when the pass raised.
   */
  datatype ChannelRun = ChannelRun(attempts: seq<Attempt>, raised: bool, notice: Option<Platform.SdkError>)

  /** A pass whose error notice itself raises: that exception leaves `/generate`. */
  predicate Aborts(run: ChannelRun)
  {
    run.raised && run.notice.Some?
  }

  /** The position of the first pass that aborts `/generate`, or `|runs|` when none does. */
  function FirstAbort(runs: seq<ChannelRun>): (n: nat)
    ensures n <= |runs|
    ensures forall i :: 0 <= i < n ==> !Aborts(runs[i])
    ensures n < |runs| ==> Aborts(runs[n])
  {
    if runs == [] || Aborts(runs[0]) then 0 else 1 + FirstAbort(runs[1..])
  }

  /** The posts stored from a channel's messages, in the order they were yielded. */
  function Indexed(attempts: seq<Attempt>): (r: seq<Post>)
    ensures |r| <= |attempts|
  {
    if attempts == [] then []
    else
      var a := attempts[|attempts| - 1];
      Indexed(attempts[..|attempts| - 1]) + (if Indexable(a.msg) && a.insertOk then [IndexPost(a.msg)] else [])
  }

  /** Indexable messages whose insert failed. */
  function PostErrors(attempts: seq<Attempt>): (n: nat)
    ensures n + |Indexed(attempts)| <= |attempts|
  {
    if attempts == [] then 0
    else
      var a := attempts[|attempts| - 1];
      PostErrors(attempts[..|attempts| - 1]) + (if Indexable(a.msg) && !a.insertOk then 1 else 0)
  }

  /** Everything the collection holds after the channels in `runs` were processed, channel by channel. */
  function IndexedAll(runs: seq<ChannelRun>): seq<Post>
  {
    if runs == [] then [] else IndexedAll(runs[..|runs| - 1]) + Indexed(runs[|runs| - 1].attempts)
  }

  /** Failed posts plus failed channels. */
  function ErrorsAll(runs: seq<ChannelRun>): nat
  {
    if runs == [] then 0
    else
      var r := runs[|runs| - 1];
      ErrorsAll(runs[..|runs| - 1]) + PostErrors(r.attempts) + (if r.raised then 1 else 0)
  }

  /** How many passes run: all of them, or those up to and including the first that aborts. */
  function Processed(runs: seq<ChannelRun>): nat
  {
    var n := FirstAbort(runs);
    if n < |runs| then n + 1 else n
  }

  /** A pass that aborts, reached without passing an earlier one that aborts, is the first. */
  lemma AbortsHere(runs: seq<ChannelRun>, c: nat)
    requires c <= FirstAbort(runs) && c < |runs| && Aborts(runs[c])
    ensures FirstAbort(runs) == c && Processed(runs) == c + 1
  {
  }

  /** Once an error notice has raised, the channels configured after it make no difference. */
  lemma {:induction false} AbortIgnoresLater(front: seq<ChannelRun>, back: seq<ChannelRun>)
    requires FirstAbort(front) < |front|
    ensures FirstAbort(front + back) == FirstAbort(front)
  {
    if !Aborts(front[0]) {
      assert (front + back)[1..] == front[1..] + back;
      AbortIgnoresLater(front[1..], back);
    }
  }

  /** Channel passes compose: what a pass stores neither undoes earlier work nor changes what later passes store. */
  lemma {:induction false} IndexedAllAppend(front: seq<ChannelRun>, back: seq<ChannelRun>)
    ensures IndexedAll(front + back) == IndexedAll(front) + IndexedAll(back)
    decreases |back|
  {
    if back == [] {
      assert front + back == front;
    } else {
      var init, last := back[..|back| - 1], back[|back| - 1];
      assert (front + back)[..|front + back| - 1] == front + init;
      assert (front + back)[|front + back| - 1] == last;
      calc {
        IndexedAll(front + back);
        IndexedAll(front + init) + Indexed(last.attempts);
        { IndexedAllAppend(front, init); }
        IndexedAll(front) + IndexedAll(init) + Indexed(last.attempts);
        IndexedAll(front) + (IndexedAll(init) + Indexed(last.attempts));
        IndexedAll(front) + IndexedAll(back);
      }
    }
  }

  /** Errors of consecutive channel passes add up. */
  lemma {:induction false} ErrorsAllAppend(front: seq<ChannelRun>, back: seq<ChannelRun>)
    ensures ErrorsAll(front + back) == ErrorsAll(front) + ErrorsAll(back)
    decreases |back|
  {
    if back == [] {
      assert front + back == front;
    } else {
      var init := back[..|back| - 1];
      assert (front + back)[..|front + back| - 1] == front + init;
      assert (front + back)[|front + back| - 1] == back[|back| - 1];
      ErrorsAllAppend(front, init);
    }
  }

  /** Every stored post is the record of an indexable message whose insert succeeded. */
  lemma {:induction false} IndexedComesFromAttempts(attempts: seq<Attempt>, k: nat)
    requires k < |Indexed(attempts)|
    ensures exists j :: 0 <= j < |attempts| && Indexable(attempts[j].msg) && attempts[j].insertOk
                        && Indexed(attempts)[k] == IndexPost(attempts[j].msg)
  {
    var init := attempts[..|attempts| - 1];
    var a := attempts[|attempts| - 1];
    if k < |Indexed(init)| {
      IndexedComesFromAttempts(init, k);
      var j :| 0 <= j < |init| && Indexable(init[j].msg) && init[j].insertOk && Indexed(init)[k] == IndexPost(init[j].msg);
      assert attempts[j] == init[j];
    } else {
      assert attempts[|attempts| - 1] == a;
    }
  }

  /** Every indexable message is either stored or counted as an error, never both and never dropped. */
  lemma {:induction false} IndexedPlusErrors(attempts: seq<Attempt>)
    ensures |Indexed(attempts)| + PostErrors(attempts) == CountIndexable(attempts)
  {
    if attempts != [] {
      IndexedPlusErrors(attempts[..|attempts| - 1]);
    }
  }

  function CountIndexable(attempts: seq<Attempt>): nat
  {
    if attempts == [] then 0
    else CountIndexable(attempts[..|attempts| - 1]) + (if Indexable(attempts[|attempts| - 1].msg) then 1 else 0)
  }

  /** One more message of a channel: stored, counted as an error, or skipped. */
  lemma AttemptStep(attempts: seq<Attempt>, j: nat)
    requires j < |attempts|
    ensures var a := attempts[j];
            && Indexed(attempts[..j + 1]) == Indexed(attempts[..j]) + (if Indexable(a.msg) && a.insertOk then [IndexPost(a.msg)] else [])
            && PostErrors(attempts[..j + 1]) == PostErrors(attempts[..j]) + (if Indexable(a.msg) && !a.insertOk then 1 else 0)
  {
    assert attempts[..j + 1][..j] == attempts[..j];
  }

  /** One more channel: its posts appended, its errors and its failure added. */
  lemma RunStep(runs: seq<ChannelRun>, c: nat)
    requires c < |runs|
    ensures IndexedAll(runs[..c + 1]) == IndexedAll(runs[..c]) + Indexed(runs[c].attempts)
    ensures ErrorsAll(runs[..c + 1]) == ErrorsAll(runs[..c]) + PostErrors(runs[c].attempts) + (if runs[c].raised then 1 else 0)
  {
    assert runs[..c + 1][..c] == runs[..c];
  }

  /** The completion text; the channel count is that of the configured channels, failed or not. */
  function CompletionReport(totalIndexed: nat, channels: nat, errors: nat): string
  {
    "✅ Database regeneration complete!\n"
    + "• Total posts indexed: " + NatToString(totalIndexed) + "\n"
    + "• Channels processed: " + NatToString(channels) + "\n"
    + "• Errors encountered: " + NatToString(errors)
  }

  /** The "Posts" collection. */
  class PostCollection {
    var posts: seq<Post>

    constructor(posts: seq<Post>)
      ensures this.posts == posts
    {
      this.posts := posts;
    }

    /**
     * The body of `/generate`'s per-channel `try`: insert the record of each
     * indexable message, counting successes and failed inserts.
     */
    method IndexChannel(attempts: seq<Attempt>, indexedBefore: nat, errorsBefore: nat) returns (totalIndexed: nat, errors: nat)
      requires indexedBefore == |posts|
      modifies this
      ensures posts == old(posts) + Indexed(attempts)
      ensures totalIndexed == |posts|
      ensures errors == errorsBefore + PostErrors(attempts)
    {
      totalIndexed, errors := indexedBefore, errorsBefore;
      for j := 0 to |attempts|
        invariant posts == old(posts) + Indexed(attempts[..j])
        invariant totalIndexed == |posts|
        invariant errors == errorsBefore + PostErrors(attempts[..j])
      {
        var a := attempts[j];
        AttemptStep(attempts, j);
        if Indexable(a.msg) {
          if a.insertOk {
            posts := posts + [IndexPost(a.msg)];
            totalIndexed := totalIndexed + 1;
          } else {
            errors := errors + 1;
          }
        }
      }
      assert attempts[..|attempts|] == attempts;
    }

    /**
     * `/generate`: empty the collection, then index each channel's messages
     * in turn. `runs` holds one pass per configured channel, in order. The
     * report is `None` when an error notice raised: the passes after that
     * one never ran and nothing is reported.
     */
    method ManualGenerate(runs: seq<ChannelRun>) returns (report: Option<string>)
      modifies this
      ensures posts == IndexedAll(runs[..Processed(runs)])
      ensures report.Some? <==> FirstAbort(runs) == |runs|
      ensures report.Some? ==> report.value == CompletionReport(|posts|, |runs|, ErrorsAll(runs))
    {
      var totalIndexed, errors := 0, 0;
      posts := [];
      for c := 0 to |runs|
        invariant c <= FirstAbort(runs)
        invariant posts == IndexedAll(runs[..c])
        invariant totalIndexed == |posts|
        invariant errors == ErrorsAll(runs[..c])
      {
        RunStep(runs, c);
        totalIndexed, errors := IndexChannel(runs[c].attempts, totalIndexed, errors);
        if runs[c].raised {
          if runs[c].notice.Some? {
            AbortsHere(runs, c);
            return None;
          }
          errors := errors + 1;
        }
      }
      assert runs[..|runs|] == runs;
      report := Some(CompletionReport(totalIndexed, |runs|, errors));
    }
  }
}
