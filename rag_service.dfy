/** The query orchestrator `RAGService.process_query`: the empty-corpus
    short-circuit, translation of the conversation history into a transcript,
    the agent run, selection of the final answer, recovery of the cited
    sources from every transcript message and the catch-all error answer. */
module RagService {
  import opened Wrappers
  import opened Text
  import opened Citation
  import opened Agent
  import opened Seqs

  /** One history entry as the chat route forwards it. */
  datatype Turn = Turn(role: string, content: string)

  /** The orchestrator's answer: the message text and the cited sources. */
  datatype QueryResponse = QueryResponse(message: string, sources: seq<Source>)

  const NoDocuments: string :=
    "Non ho ancora documenti caricati. Carica dei documenti prima di farmi domande."
  const ErrorPrefix: string := "Si \U{00E8} verificato un errore: "

  // ------------------------------------------------------------ transcript

  /** One history entry in the transcript: a user turn becomes a human
      message, an assistant turn a model message without tool calls, and any
      other role is dropped. */
  function TranslateTurn(t: Turn): (r: seq<Message>)
    ensures |r| <= 1
    ensures r == [] <==> t.role != "user" && t.role != "assistant"
    ensures r != [] ==> r[0].content == t.content && !r[0].System? && !r[0].ToolResult?
    ensures r != [] ==> (r[0].Human? <==> t.role == "user")
  {
    if t.role == "user" then [Human(t.content)]
    else if t.role == "assistant" then [Ai(t.content, [])]
    else []
  }

  function TranslateHistory(history: seq<Turn>): (r: seq<Message>)
    ensures |r| <= |history|
    decreases |history|
  {
    if history == [] then [] else TranslateTurn(history[0]) + TranslateHistory(history[1..])
  }

  /** The transcript the agent starts from: the translated history, then the
      query as a human message. A missing history counts as empty. */
  function Transcript(history: Option<seq<Turn>>, query: string): seq<Message> {
    var h := match history case Some(h) => h case None => [];
    TranslateHistory(h) + [Human(query)]
  }

  lemma {:induction false} TranslateHistorySnoc(history: seq<Turn>, t: Turn)
    ensures TranslateHistory(history + [t]) == TranslateHistory(history) + TranslateTurn(t)
    decreases |history|
  {
    if history == [] {
      assert history + [t] == [t];
      assert [t][1..] == [];
      assert TranslateTurn(t) + [] == TranslateTurn(t);
    } else {
      assert (history + [t])[0] == history[0];
      assert (history + [t])[1..] == history[1..] + [t];
      TranslateHistorySnoc(history[1..], t);
    }
  }

  /** The translation loop: the query is appended after all history entries. */
  method BuildTranscript(history: Option<seq<Turn>>, query: string) returns (msgs: seq<Message>)
    ensures msgs == Transcript(history, query)
  {
    var h := match history case Some(h) => h case None => [];
    msgs := [];
    var i := 0;
    while i < |h|
      invariant 0 <= i <= |h|
      invariant msgs == TranslateHistory(h[..i])
    {
      TranslateHistorySnoc(h[..i], h[i]);
      assert h[..i + 1] == h[..i] + [h[i]];
      if h[i].role == "user" {
        msgs := msgs + [Human(h[i].content)];
      } else if h[i].role == "assistant" {
        msgs := msgs + [Ai(h[i].content, [])];
      }
      i := i + 1;
    }
    assert h[..|h|] == h;
    msgs := msgs + [Human(query)];
  }

  predicate KnownRole(t: Turn) {
    t.role == "user" || t.role == "assistant"
  }

  /** When every role is known the transcript keeps the history one to one,
      in order, with the query as the last message; in every case it holds
      only human and model messages, none of them with tool calls. */
  lemma {:induction false} TranscriptShape(history: seq<Turn>, query: string)
    ensures var m := Transcript(Some(history), query);
      m[|m| - 1] == Human(query)
      && (forall k | 0 <= k < |m| :: (m[k].Human? || m[k].Ai?) && (m[k].Ai? ==> m[k].toolCalls == []))
      && ((forall k | 0 <= k < |history| :: KnownRole(history[k])) ==>
            |m| == |history| + 1
            && forall k | 0 <= k < |history| ::
                 m[k].content == history[k].content && (m[k].Human? <==> history[k].role == "user"))
    decreases |history|
  {
    if history != [] {
      TranscriptShape(history[1..], query);
      var m := Transcript(Some(history), query);
      var m1 := Transcript(Some(history[1..]), query);
      var head := TranslateTurn(history[0]);
      assert m == head + m1;
      if forall k | 0 <= k < |history| :: KnownRole(history[k]) {
        assert KnownRole(history[0]);
        assert forall k | 1 <= k < |history| :: history[1..][k - 1] == history[k];
        forall k | 0 <= k < |history|
          ensures m[k].content == history[k].content && (m[k].Human? <==> history[k].role == "user")
        {
          if k > 0 {
            assert m[k] == m1[k - 1];
          }
        }
      }
    }
  }

  // --------------------------------------------------------------- sources

  type Key = (string, string)

  /** The de-duplication key of a tag: its stripped filename and page. */
  function TagKey(t: Tag): Key {
    (PyStrip(t.filename), PyStrip(t.page))
  }

  function SourceKey(s: Source): Key {
    (s.filename, s.page)
  }

  predicate KeyIn(acc: seq<Source>, key: Key) {
    exists k | 0 <= k < |acc| :: SourceKey(acc[k]) == key
  }

  predicate DistinctKeys(acc: seq<Source>) {
    forall i, j | 0 <= i < j < |acc| :: SourceKey(acc[i]) != SourceKey(acc[j])
  }

  /** The index of the first tag with the given key, `|tags|` if none. */
  function FirstIndex(tags: seq<Tag>, key: Key): (i: nat)
    ensures i <= |tags|
    ensures i < |tags| ==> TagKey(tags[i]) == key
    ensures forall j | 0 <= j < i :: TagKey(tags[j]) != key
    decreases |tags|
  {
    if tags == [] then 0 else if TagKey(tags[0]) == key then 0 else 1 + FirstIndex(tags[1..], key)
  }

  /** One iteration of the inner loop: a tag whose key is already listed is
      skipped before its score is read; otherwise the score is converted,
      which raises when it is not a number. */
  function AddTag(acc: seq<Source>, t: Tag): Result<seq<Source>, string> {
    if KeyIn(acc, TagKey(t)) then Ok(acc)
    else
      match ParseScore(t.score)
      case None => Err(FloatError(t.score))
      case Some(d) => Ok(acc + [Source(PyStrip(t.filename), PyStrip(t.page), d)])
  }

  function AddTags(acc: seq<Source>, tags: seq<Tag>): Result<seq<Source>, string>
    decreases |tags|
  {
    if tags == [] then Ok(acc)
    else
      match AddTag(acc, tags[0])
      case Err(e) => Err(e)
      case Ok(a) => AddTags(a, tags[1..])
  }

  /** The tags found in one message: its content is scanned when it contains
      the marker, whatever kind of message it is. */
  function ScanMessage(m: Message): seq<Tag> {
    if HasInfix(m.content, Marker) then FindAll(m.content) else []
  }

  function TagsOf(msgs: seq<Message>): seq<Tag> {
    Flat(ScanMessage, msgs)
  }

  /** The sources of a final transcript. */
  function CollectSources(msgs: seq<Message>): Result<seq<Source>, string> {
    AddTags([], TagsOf(msgs))
  }

  /** The marker test never hides a match: every message, human, model or
      tool, contributes exactly the tags the pattern finds in it. */
  lemma ScanEveryMessage(m: Message)
    ensures ScanMessage(m) == FindAll(m.content)
  {
    if !HasInfix(m.content, Marker) {
      FindAllNeedsMarker(m.content);
    }
  }

  lemma {:induction false} AddTagsAppend(acc: seq<Source>, a: seq<Tag>, b: seq<Tag>)
    ensures AddTags(acc, a + b) == match AddTags(acc, a) case Err(e) => Err(e) case Ok(x) => AddTags(x, b)
    decreases |a|
  {
    if a == [] {
      assert a + b == b;
    } else {
      assert (a + b)[0] == a[0];
      assert (a + b)[1..] == a[1..] + b;
      match AddTag(acc, a[0])
      case Err(e) =>
      case Ok(x) => AddTagsAppend(x, a[1..], b);
    }
  }

  lemma TagsOfAppend(a: seq<Message>, b: seq<Message>)
    ensures TagsOf(a + b) == TagsOf(a) + TagsOf(b)
  {
    FlatAppend(ScanMessage, a, b);
  }

  lemma TagsOfOne(m: Message)
    ensures TagsOf([m]) == ScanMessage(m)
  {
    FlatOne(ScanMessage, m);
  }

  /** The extraction loops: for each message that contains the marker, every
      match is checked against the sources listed so far. */
  method ExtractSources(msgs: seq<Message>) returns (r: Result<seq<Source>, string>)
    ensures r == CollectSources(msgs)
  {
    var sources: seq<Source> := [];
    var i := 0;
    while i < |msgs|
      invariant 0 <= i <= |msgs|
      invariant AddTags([], TagsOf(msgs[..i])) == Ok(sources)
    {
      var tags: seq<Tag> := [];
      if HasInfix(msgs[i].content, Marker) {
        tags := FindAll(msgs[i].content);
      }
      assert tags == ScanMessage(msgs[i]);
      var step := AddMessageTags(TagsOf(msgs[..i]), tags, sources);
      if step.Err? {
        StopAtError(msgs, i, tags);
        return step;
      }
      sources := step.value;
      SnocPrefix(msgs, i);
      TagsOfAppend(msgs[..i], [msgs[i]]);
      TagsOfOne(msgs[i]);
      i := i + 1;
    }
    WholePrefix(msgs);
    r := Ok(sources);
  }

  /** The inner loop over one message's matches, after the tags `seen` in
      earlier messages gave `sources0`: a failed conversion stops it. */
  method AddMessageTags(ghost seen: seq<Tag>, tags: seq<Tag>, sources0: seq<Source>) returns (r: Result<seq<Source>, string>)
    requires AddTags([], seen) == Ok(sources0)
    ensures r == AddTags([], seen + tags)
  {
    var sources := sources0;
    EmptyPrefix(seen, tags);
    var j := 0;
    while j < |tags|
      invariant 0 <= j <= |tags|
      invariant AddTags([], seen + tags[..j]) == Ok(sources)
    {
      var t := tags[j];
      StepTag(seen + tags[..j], t, sources);
      SnocSlice(seen, tags, j);
      if !KeyIn(sources, TagKey(t)) {
        var d := ParseScore(t.score);
        if d.None? {
          r := Err(FloatError(t.score));
          ErrorPersists(seen, tags, j + 1);
          return;
        }
        sources := sources + [Source(PyStrip(t.filename), PyStrip(t.page), d.value)];
      }
      j := j + 1;
    }
    WholePrefix(tags);
    r := Ok(sources);
  }

  /** One step of the inner loop is one `AddTag`. */
  lemma StepTag(prefix: seq<Tag>, t: Tag, sources: seq<Source>)
    requires AddTags([], prefix) == Ok(sources)
    ensures AddTags([], prefix + [t]) == AddTag(sources, t)
  {
    AddTagsAppend([], prefix, [t]);
    assert [t][1..] == [];
  }

  /** Once a conversion has failed, later tags do not change the outcome. */
  lemma ErrorPersists(seen: seq<Tag>, tags: seq<Tag>, j: nat)
    requires j <= |tags| && AddTags([], seen + tags[..j]).Err?
    ensures AddTags([], seen + tags) == AddTags([], seen + tags[..j])
  {
    assert seen + tags == (seen + tags[..j]) + tags[j..];
    AddTagsAppend([], seen + tags[..j], tags[j..]);
  }

  /** A failed conversion ends the whole extraction with that error. */
  lemma StopAtError(msgs: seq<Message>, i: nat, tags: seq<Tag>)
    requires i < |msgs| && tags == ScanMessage(msgs[i])
    requires AddTags([], TagsOf(msgs[..i]) + tags).Err?
    ensures CollectSources(msgs) == AddTags([], TagsOf(msgs[..i]) + tags)
  {
    var p := TagsOf(msgs[..i]) + tags;
    PrefixTags(msgs, i, tags, |tags|);
    WholePrefix(tags);
    AddTagsAppend([], p, TagsOf(msgs)[|p|..]);
  }

  /** Tags seen so far are a prefix of all the tags of the transcript. */
  lemma PrefixTags(msgs: seq<Message>, i: nat, tags: seq<Tag>, j: nat)
    requires i < |msgs| && tags == ScanMessage(msgs[i]) && j <= |tags|
    ensures var p := TagsOf(msgs[..i]) + tags[..j];
      |p| <= |TagsOf(msgs)| && TagsOf(msgs) == p + TagsOf(msgs)[|p|..]
  {
    TagsOfSplit(msgs, i);
    PrefixSplit(TagsOf(msgs[..i]), tags, TagsOf(msgs[i + 1..]), j);
  }

  lemma TagsOfSplit(msgs: seq<Message>, i: nat)
    requires i < |msgs|
    ensures TagsOf(msgs) == TagsOf(msgs[..i]) + (ScanMessage(msgs[i]) + TagsOf(msgs[i + 1..]))
  {
    SplitAt(msgs, i);
    TagsOfCons(msgs[..i], msgs[i], msgs[i + 1..]);
  }

  lemma TagsOfCons(a: seq<Message>, m: Message, b: seq<Message>)
    ensures TagsOf(a + ([m] + b)) == TagsOf(a) + (ScanMessage(m) + TagsOf(b))
  {
    TagsOfAppend(a, [m] + b);
    TagsOfAppend([m], b);
    TagsOfOne(m);
  }

  /** What one `AddTag` does: a listed key leaves the sources as they are,
      a new key appends one source with that key and the parsed score. */
  lemma AddTagFacts(acc: seq<Source>, t: Tag)
    requires AddTag(acc, t).Ok?
    ensures var a := AddTag(acc, t).value;
      KeyIn(a, TagKey(t))
      && (KeyIn(acc, TagKey(t)) ==> a == acc)
      && (!KeyIn(acc, TagKey(t)) ==>
            a == acc + [a[|acc|]] && SourceKey(a[|acc|]) == TagKey(t)
            && ParseScore(t.score) == Some(a[|acc|].score))
  {
    var a := AddTag(acc, t).value;
    if !KeyIn(acc, TagKey(t)) {
      assert a[|acc|] == a[|a| - 1];
      assert SourceKey(a[|acc|]) == TagKey(t);
    }
  }

  lemma KeyInExtends(acc: seq<Source>, r: seq<Source>, key: Key)
    requires |acc| <= |r| && r[..|acc|] == acc && KeyIn(acc, key)
    ensures KeyIn(r, key)
  {
    var w :| 0 <= w < |acc| && SourceKey(acc[w]) == key;
    assert r[w] == acc[w];
  }

  /** AddTags only ever appends to the sources listed before. */
  lemma {:induction false} AddTagsExtends(acc: seq<Source>, tags: seq<Tag>)
    requires AddTags(acc, tags).Ok?
    ensures |acc| <= |AddTags(acc, tags).value| && AddTags(acc, tags).value[..|acc|] == acc
    decreases |tags|
  {
    if tags != [] {
      var a := AddTag(acc, tags[0]).value;
      AddTagFacts(acc, tags[0]);
      AddTagsExtends(a, tags[1..]);
      PrefixTrans(acc, a, AddTags(a, tags[1..]).value);
    }
  }

  lemma DistinctSnoc(acc: seq<Source>, s: Source)
    requires DistinctKeys(acc) && !KeyIn(acc, SourceKey(s))
    ensures DistinctKeys(acc + [s])
  {
    var a := acc + [s];
    forall i, j | 0 <= i < j < |a| ensures SourceKey(a[i]) != SourceKey(a[j]) {
      assert a[i] == acc[i];
      if j < |acc| {
        assert a[j] == acc[j];
      }
    }
  }

  /** With distinct keys before, the keys stay distinct. */
  lemma {:induction false} AddTagsDistinct(acc: seq<Source>, tags: seq<Tag>)
    requires AddTags(acc, tags).Ok? && DistinctKeys(acc)
    ensures DistinctKeys(AddTags(acc, tags).value)
    decreases |tags|
  {
    if tags != [] {
      var a := AddTag(acc, tags[0]).value;
      AddTagFacts(acc, tags[0]);
      if !KeyIn(acc, TagKey(tags[0])) {
        DistinctSnoc(acc, a[|acc|]);
      }
      AddTagsDistinct(a, tags[1..]);
    }
  }

  /** Every tag's key ends up listed. */
  lemma {:induction false} AddTagsCovers(acc: seq<Source>, tags: seq<Tag>)
    requires AddTags(acc, tags).Ok?
    ensures forall i | 0 <= i < |tags| :: KeyIn(AddTags(acc, tags).value, TagKey(tags[i]))
    decreases |tags|
  {
    if tags != [] {
      var a := AddTag(acc, tags[0]).value;
      var r := AddTags(a, tags[1..]).value;
      AddTagFacts(acc, tags[0]);
      AddTagsCovers(a, tags[1..]);
      AddTagsExtends(a, tags[1..]);
      KeyInExtends(a, r, TagKey(tags[0]));
      forall i | 1 <= i < |tags| ensures KeyIn(r, TagKey(tags[i])) {
        assert tags[i] == tags[1..][i - 1];
      }
    }
  }

  /** Each appended source has a new key, is the first tag with that key,
      and carries that tag's parsed score. */
  lemma {:induction false} AddTagsNew(acc: seq<Source>, tags: seq<Tag>)
    requires AddTags(acc, tags).Ok?
    ensures var r := AddTags(acc, tags).value;
      forall k | |acc| <= k < |r| ::
        !KeyIn(acc, SourceKey(r[k]))
        && FirstIndex(tags, SourceKey(r[k])) < |tags|
        && ParseScore(tags[FirstIndex(tags, SourceKey(r[k]))].score) == Some(r[k].score)
    decreases |tags|
  {
    if tags != [] {
      var t, rest := tags[0], tags[1..];
      var a := AddTag(acc, t).value;
      var r := AddTags(a, rest).value;
      AddTagFacts(acc, t);
      AddTagsNew(a, rest);
      AddTagsExtends(a, rest);
      forall k | |acc| <= k < |r|
        ensures !KeyIn(acc, SourceKey(r[k]))
        ensures FirstIndex(tags, SourceKey(r[k])) < |tags|
        ensures ParseScore(tags[FirstIndex(tags, SourceKey(r[k]))].score) == Some(r[k].score)
      {
        var key := SourceKey(r[k]);
        if k < |a| {
          assert r[k] == a[k];
          assert FirstIndex(tags, key) == 0;
        } else {
          assert key != TagKey(t);
          assert FirstIndex(tags, key) == 1 + FirstIndex(rest, key);
          assert tags[1 + FirstIndex(rest, key)] == rest[FirstIndex(rest, key)];
          if KeyIn(acc, key) {
            KeyInExtends(acc, a, key);
          }
        }
      }
    }
  }

  /** Appended sources are in order of the first appearance of their keys. */
  lemma {:induction false} AddTagsOrder(acc: seq<Source>, tags: seq<Tag>)
    requires AddTags(acc, tags).Ok?
    ensures var r := AddTags(acc, tags).value;
      forall k1, k2 | |acc| <= k1 < k2 < |r| ::
        FirstIndex(tags, SourceKey(r[k1])) < FirstIndex(tags, SourceKey(r[k2]))
    decreases |tags|
  {
    if tags != [] {
      var t, rest := tags[0], tags[1..];
      var a := AddTag(acc, t).value;
      var r := AddTags(a, rest).value;
      AddTagFacts(acc, t);
      AddTagsOrder(a, rest);
      AddTagsNew(a, rest);
      AddTagsExtends(a, rest);
      forall k1, k2 | |acc| <= k1 < k2 < |r|
        ensures FirstIndex(tags, SourceKey(r[k1])) < FirstIndex(tags, SourceKey(r[k2]))
      {
        var key2 := SourceKey(r[k2]);
        assert key2 != TagKey(t);
        assert FirstIndex(tags, key2) == 1 + FirstIndex(rest, key2);
        if k1 < |a| {
          assert r[k1] == a[k1];
        } else {
          assert SourceKey(r[k1]) != TagKey(t);
        }
      }
    }
  }

  /** The de-duplication, characterised: the result extends what was listed
      before; with distinct keys before, keys stay distinct; every tag's key
      is listed; each new source is the first tag with its key, with that
      tag's score; and new sources are in order of first appearance. */
  lemma AddTagsSpec(acc: seq<Source>, tags: seq<Tag>)
    requires AddTags(acc, tags).Ok?
    ensures var r := AddTags(acc, tags).value;
      |acc| <= |r| && r[..|acc|] == acc
      && (DistinctKeys(acc) ==> DistinctKeys(r))
      && (forall i | 0 <= i < |tags| :: KeyIn(r, TagKey(tags[i])))
      && (forall k | |acc| <= k < |r| ::
            !KeyIn(acc, SourceKey(r[k]))
            && FirstIndex(tags, SourceKey(r[k])) < |tags|
            && ParseScore(tags[FirstIndex(tags, SourceKey(r[k]))].score) == Some(r[k].score))
      && (forall k1, k2 | |acc| <= k1 < k2 < |r| ::
            FirstIndex(tags, SourceKey(r[k1])) < FirstIndex(tags, SourceKey(r[k2])))
  {
    AddTagsExtends(acc, tags);
    if DistinctKeys(acc) {
      AddTagsDistinct(acc, tags);
    }
    AddTagsCovers(acc, tags);
    AddTagsNew(acc, tags);
    AddTagsOrder(acc, tags);
  }

  /** The error case: the conversion fails exactly on the first tag whose key
      is new and whose score is not a number, and the message names it. */
  lemma {:induction false} AddTagsError(acc: seq<Source>, tags: seq<Tag>)
    ensures AddTags(acc, tags).Err? ==>
      exists i | 0 <= i < |tags| ::
        FirstIndex(tags, TagKey(tags[i])) == i && !KeyIn(acc, TagKey(tags[i]))
        && ParseScore(tags[i].score).None? && AddTags(acc, tags).error == FloatError(tags[i].score)
    decreases |tags|
  {
    if tags != [] && AddTags(acc, tags).Err? {
      var t := tags[0];
      if AddTag(acc, t).Err? {
        assert FirstIndex(tags, TagKey(tags[0])) == 0;
      } else {
        var a := AddTag(acc, t).value;
        AddTagsError(a, tags[1..]);
        var i :| 0 <= i < |tags[1..]| &&
          FirstIndex(tags[1..], TagKey(tags[1..][i])) == i && !KeyIn(a, TagKey(tags[1..][i]))
          && ParseScore(tags[1..][i].score).None? && AddTags(a, tags[1..]).error == FloatError(tags[1..][i].score);
        assert tags[i + 1] == tags[1..][i];
        assert TagKey(t) != TagKey(tags[i + 1]) by {
          if KeyIn(acc, TagKey(t)) {
            assert a == acc;
          } else {
            assert a[|acc|].filename == PyStrip(t.filename) && a[|acc|].page == PyStrip(t.page);
            assert SourceKey(a[|acc|]) == TagKey(t);
          }
        }
        assert !KeyIn(acc, TagKey(tags[i + 1])) by {
          forall w | 0 <= w < |acc| ensures SourceKey(acc[w]) != TagKey(tags[i + 1]) {
            assert a[w] == acc[w];
          }
        }
      }
    }
  }

  /** When every score is a number, extraction cannot fail. */
  lemma {:induction false} AddTagsTotal(acc: seq<Source>, tags: seq<Tag>)
    requires forall i | 0 <= i < |tags| :: ParseScore(tags[i].score).Some?
    ensures AddTags(acc, tags).Ok?
    decreases |tags|
  {
    if tags != [] {
      AddTagsTotal(AddTag(acc, tags[0]).value, tags[1..]);
    }
  }

  /** Sources of a transcript: distinct keys, every match of every message is
      covered, and each source carries the score of the first match with its
      key, in order of first appearance. */
  lemma CollectSourcesSpec(msgs: seq<Message>)
    requires CollectSources(msgs).Ok?
    ensures var r := CollectSources(msgs).value; var tags := TagsOf(msgs);
      DistinctKeys(r)
      && (forall i | 0 <= i < |tags| :: KeyIn(r, TagKey(tags[i])))
      && (forall k | 0 <= k < |r| ::
            FirstIndex(tags, SourceKey(r[k])) < |tags|
            && ParseScore(tags[FirstIndex(tags, SourceKey(r[k]))].score) == Some(r[k].score))
      && (forall k1, k2 | 0 <= k1 < k2 < |r| ::
            FirstIndex(tags, SourceKey(r[k1])) < FirstIndex(tags, SourceKey(r[k2])))
  {
    AddTagsSpec([], TagsOf(msgs));
  }

  /** When every score is a number the sources are at most one per tag,
      cover every tag's key, and each is the key and parsed score of the first
      tag with that key. */
  lemma SourcesOfNumericTags(tags: seq<Tag>)
    requires forall i | 0 <= i < |tags| :: ParseScore(tags[i].score).Some?
    ensures AddTags([], tags).Ok?
    ensures var r := AddTags([], tags).value;
      |r| <= |tags|
      && (forall i | 0 <= i < |tags| :: KeyIn(r, TagKey(tags[i])))
      && (forall k | 0 <= k < |r| ::
            FirstIndex(tags, SourceKey(r[k])) < |tags|
            && ParseScore(tags[FirstIndex(tags, SourceKey(r[k]))].score) == Some(r[k].score))
  {
    AddTagsTotal([], tags);
    AddTagsCovers([], tags);
    AddTagsNew([], tags);
    AddTagsOrder([], tags);
    OrderedBound(AddTags([], tags).value, tags);
  }

  /** The tags of a transcript made of one rendered tool answer are the tags
      of its hits. */
  lemma TagsOfRendered(hits: seq<Hit>, id: string)
    requires forall k | 0 <= k < |hits| :: Parsable(hits[k])
    ensures TagsOf([ToolResult(Render(hits), id)]) == ExpectedTags(hits, 1)
  {
    var m := ToolResult(Render(hits), id);
    ScanEveryMessage(m);
    BlocksScan(hits, 1);
    TagsOfOne(m);
  }

  /** The tag of a rendered hit has the hit's stripped keys and its score
      with two decimal places. */
  lemma ExpectedTagFields(hits: seq<Hit>, tags: seq<Tag>, k: nat)
    requires tags == ExpectedTags(hits, 1) && k < |hits|
    ensures |tags| == |hits|
    ensures TagKey(tags[k]) == (PyStrip(FilenameField(hits[k])), PyStrip(PageField(hits[k])))
    ensures ParseScore(tags[k].score) == Some(Decimal(ScoreField(hits[k]), 2))
  {
    ScoreRoundTrip(ScoreField(hits[k]));
  }

  /** Every tag of rendered hits has a score that parses. */
  lemma ExpectedTagsParse(hits: seq<Hit>, tags: seq<Tag>)
    requires tags == ExpectedTags(hits, 1)
    ensures forall i | 0 <= i < |tags| :: ParseScore(tags[i].score).Some?
  {
    forall i | 0 <= i < |tags| ensures ParseScore(tags[i].score).Some? {
      ScoreRoundTrip(ScoreField(hits[i]));
    }
  }

  /** The sources of the tags of any hits, as `RenderedSources` states them. */
  lemma SourcesOfHits(hits: seq<Hit>, tags: seq<Tag>)
    requires tags == ExpectedTags(hits, 1)
    ensures AddTags([], tags).Ok?
    ensures var r := AddTags([], tags).value;
      |r| <= |hits|
      && (forall k | 0 <= k < |hits| :: KeyIn(r, (PyStrip(FilenameField(hits[k])), PyStrip(PageField(hits[k])))))
      && (forall k | 0 <= k < |r| :: exists j | 0 <= j < |hits| ::
            SourceKey(r[k]) == (PyStrip(FilenameField(hits[j])), PyStrip(PageField(hits[j])))
            && r[k].score == Decimal(ScoreField(hits[j]), 2))
  {
    ExpectedTagsParse(hits, tags);
    SourcesOfNumericTags(tags);
    var r := AddTags([], tags).value;
    forall k | 0 <= k < |r|
      ensures exists j | 0 <= j < |hits| ::
        SourceKey(r[k]) == (PyStrip(FilenameField(hits[j])), PyStrip(PageField(hits[j])))
        && r[k].score == Decimal(ScoreField(hits[j]), 2)
    {
      SourceFromHit(hits, tags, r[k]);
    }
  }

  /** A source taken from the first tag with its key carries that hit's
      stripped filename and page and its printed score. */
  lemma SourceFromHit(hits: seq<Hit>, tags: seq<Tag>, s: Source)
    requires tags == ExpectedTags(hits, 1)
    requires FirstIndex(tags, SourceKey(s)) < |tags|
    requires ParseScore(tags[FirstIndex(tags, SourceKey(s))].score) == Some(s.score)
    ensures exists j | 0 <= j < |hits| ::
      SourceKey(s) == (PyStrip(FilenameField(hits[j])), PyStrip(PageField(hits[j])))
      && s.score == Decimal(ScoreField(hits[j]), 2)
  {
    var j := FirstIndex(tags, SourceKey(s));
    ExpectedTagFields(hits, tags, j);
  }

  /** A single tool answer rendered from parsable hits always yields its
      sources: at most one per hit, and every hit's stripped filename and page
      among them, with the score the tool printed (two decimal places). */
  lemma RenderedSources(hits: seq<Hit>, id: string)
    requires forall k | 0 <= k < |hits| :: Parsable(hits[k])
    ensures CollectSources([ToolResult(Render(hits), id)]).Ok?
    ensures var r := CollectSources([ToolResult(Render(hits), id)]).value;
      |r| <= |hits|
      && (forall k | 0 <= k < |hits| :: KeyIn(r, (PyStrip(FilenameField(hits[k])), PyStrip(PageField(hits[k])))))
      && (forall k | 0 <= k < |r| :: exists j | 0 <= j < |hits| ::
            SourceKey(r[k]) == (PyStrip(FilenameField(hits[j])), PyStrip(PageField(hits[j])))
            && r[k].score == Decimal(ScoreField(hits[j]), 2))
  {
    TagsOfRendered(hits, id);
    SourcesOfHits(hits, ExpectedTags(hits, 1));
  }

  /** Sources listed in strictly increasing order of first appearance among
      `tags` are at most as many as the tags. */
  lemma {:induction false} OrderedBound(r: seq<Source>, tags: seq<Tag>)
    requires forall k | 0 <= k < |r| :: FirstIndex(tags, SourceKey(r[k])) < |tags|
    requires forall k1, k2 | 0 <= k1 < k2 < |r| ::
               FirstIndex(tags, SourceKey(r[k1])) < FirstIndex(tags, SourceKey(r[k2]))
    ensures |r| <= |tags|
  {
    if r != [] {
      IndexAtLeast(r, tags, |r| - 1);
    }
  }

  lemma {:induction false} IndexAtLeast(r: seq<Source>, tags: seq<Tag>, k: nat)
    requires k < |r|
    requires forall k1, k2 | 0 <= k1 < k2 < |r| ::
               FirstIndex(tags, SourceKey(r[k1])) < FirstIndex(tags, SourceKey(r[k2]))
    ensures FirstIndex(tags, SourceKey(r[k])) >= k
    decreases k
  {
    if k > 0 {
      IndexAtLeast(r, tags, k - 1);
    }
  }

  // -------------------------------------------------------------- the query

  /** The answer of `process_query`: the canned text when the store holds no
      document, otherwise the answer drawn from the agent's outcome. `top_k`
      is not a parameter: it never reaches the agent. */
  function QueryResult(query: string, history: Option<seq<Turn>>, docCount: int, agent: Graph, rt: Runtime): QueryResponse {
    if docCount == 0 then QueryResponse(NoDocuments, [])
    else
      var transcript := Transcript(history, query);
      var outcome := Invoke(rt, agent, AgentState(transcript, "", []));
      if outcome.Ok? then RunShape(rt, agent, transcript, rt.steps); Respond(outcome)
      else Respond(outcome)
  }

  /** The answer drawn from the agent's outcome: the error text for a failing
      run or a score that is not a number; otherwise the content of the last
      transcript message, with its sources. */
  function Respond(outcome: Result<AgentState, string>): QueryResponse
    requires outcome.Ok? ==> outcome.value.messages != []
  {
    match outcome
    case Err(e) => ErrorAnswer(e)
    case Ok(st) =>
      var out := st.messages;
      match CollectSources(out)
      case Err(e) => ErrorAnswer(e)
      case Ok(srcs) => QueryResponse(out[|out| - 1].content, srcs)
  }

  /** An agent error becomes the error text; a finished transcript whose
      extraction fails (some tag's score is not a number) becomes the error
      text of that score, without sources; otherwise the answer is the final
      model answer with the extracted sources, whose keys are distinct. */
  lemma RespondSpec(outcome: Result<AgentState, string>)
    requires outcome.Ok? ==> FinalTurn(outcome.value.messages)
    ensures outcome.Err? ==> Respond(outcome) == QueryResponse(ErrorPrefix + outcome.error, [])
    ensures outcome.Ok? && CollectSources(outcome.value.messages).Err? ==>
      var m := outcome.value.messages; var e := CollectSources(m).error;
      Respond(outcome) == QueryResponse(ErrorPrefix + e, [])
      && exists i | 0 <= i < |TagsOf(m)| :: ParseScore(TagsOf(m)[i].score).None? && e == FloatError(TagsOf(m)[i].score)
    ensures outcome.Ok? && CollectSources(outcome.value.messages).Ok? ==>
      var m := outcome.value.messages; var r := Respond(outcome);
      FinalAnswer(m, r.message) && r.sources == CollectSources(m).value && DistinctKeys(r.sources)
  {
    if outcome.Ok? {
      if CollectSources(outcome.value.messages).Ok? {
        CollectSourcesSpec(outcome.value.messages);
      } else {
        AddTagsError([], TagsOf(outcome.value.messages));
      }
    }
  }

  /** A transcript as a finished run leaves it: its last message is a model
      turn without tool calls. */
  predicate FinalTurn(out: seq<Message>) {
    out != [] && out[|out| - 1].Ai? && out[|out| - 1].toolCalls == []
  }

  /** What a caller of `process_query` can rely on: no document means the
      canned answer; a failing run gives its error text; a finished run
      (one whose last model turn asked for no tool) gives the error text of
      a score that is not a number, or else its final answer with the
      sources of its transcript, whose keys are distinct. */
  lemma QueryOutcome(query: string, history: Option<seq<Turn>>, docCount: int, agent: Graph, rt: Runtime)
    ensures docCount == 0 ==> QueryResult(query, history, docCount, agent, rt) == QueryResponse(NoDocuments, [])
    ensures var r := QueryResult(query, history, docCount, agent, rt);
      var run := Run(rt, agent, Transcript(history, query), rt.steps);
      docCount != 0 && run.Err? ==> r == QueryResponse(ErrorPrefix + run.error, [])
    ensures var r := QueryResult(query, history, docCount, agent, rt);
      var run := Run(rt, agent, Transcript(history, query), rt.steps);
      docCount != 0 && run.Ok? ==>
        FinalTurn(run.value)
        && (CollectSources(run.value).Err? ==> r == QueryResponse(ErrorPrefix + CollectSources(run.value).error, []))
        && (CollectSources(run.value).Ok? ==>
              FinalAnswer(run.value, r.message) && r.sources == CollectSources(run.value).value && DistinctKeys(r.sources))
  {
    if docCount != 0 {
      var transcript := Transcript(history, query);
      OutcomeOfRun(rt, agent, transcript);
      RespondSpec(Invoke(rt, agent, AgentState(transcript, "", [])));
    }
  }

  /** The agent's outcome for a fresh state is the run's: its error, or a
      finished transcript. */
  lemma OutcomeOfRun(rt: Runtime, agent: Graph, transcript: seq<Message>)
    ensures var run := Run(rt, agent, transcript, rt.steps);
      var outcome := Invoke(rt, agent, AgentState(transcript, "", []));
      (run.Err? ==> outcome == Err(run.error))
      && (run.Ok? ==> outcome == Ok(AgentState(run.value, "", [])) && FinalTurn(run.value))
  {
    if Run(rt, agent, transcript, rt.steps).Ok? {
      RunShape(rt, agent, transcript, rt.steps);
    }
  }

  /** `text` is the answer the model gave in the last turn of a finished
      transcript, a turn without tool calls. */
  predicate FinalAnswer(out: seq<Message>, text: string) {
    FinalTurn(out) && out[|out| - 1].content == text
  }

  function ErrorAnswer(e: string): (r: QueryResponse)
    ensures StartsWith(r.message, ErrorPrefix) && r.sources == []
  {
    assert (ErrorPrefix + e)[..|ErrorPrefix|] == ErrorPrefix;
    QueryResponse(ErrorPrefix + e, [])
  }

  /** A successful invocation leaves a transcript with a last message. */
  lemma InvokeNotEmpty(rt: Runtime, agent: Graph, msgs: seq<Message>)
    requires Invoke(rt, agent, AgentState(msgs, "", [])).Ok?
    ensures Invoke(rt, agent, AgentState(msgs, "", [])).value.messages != []
  {
    RunShape(rt, agent, msgs, rt.steps);
  }

  /** `process_query(query, conversation_history, top_k)` with the store's
      document count as `docCount`. */
  method ProcessQuery(query: string, history: Option<seq<Turn>>, topK: Option<int>, docCount: int, agent: Graph, rt: Runtime)
    returns (r: QueryResponse)
    ensures r == QueryResult(query, history, docCount, agent, rt)
  {
    if docCount == 0 {
      return QueryResponse(NoDocuments, []);
    }
    var msgs := BuildTranscript(history, query);
    var result := Invoke(rt, agent, AgentState(msgs, "", []));
    if result.Err? {
      return ErrorAnswer(result.error);
    }
    InvokeNotEmpty(rt, agent, msgs);
    var out := result.value.messages;
    var text := out[|out| - 1].content;
    var sources := ExtractSources(out);
    if sources.Err? {
      return ErrorAnswer(sources.error);
    }
    r := QueryResponse(text, sources.value);
  }
}
