/**
 * The `NoteFinder` class: the notes snapshot, single and bulk ingest into the
 * vector cache, the grounded answer path and the `run` driver.  The embedding
 * provider (`embed`), the chat provider (`chat`), the directory listing and
 * file reads (`listing`, `read`) and the console input (`lines`) are parameters.
 */
module NoteFinder {
  import opened Wrappers
  import opened Text
  import opened Vectors
  import opened Embeddings
  import opened VectorCache

  // ---------------------------------------------------------------- notes

  /** `load_notes`: every listed name ending in `.md`, mapped to its file content. */
  method LoadNotes(listing: seq<string>, read: string -> string) returns (notes: map<string, string>)
    ensures notes.Keys == set n | n in listing && EndsWith(n, ".md")
    ensures forall n :: n in notes ==> notes[n] == read(n)
  {
    notes := map[];
    for i := 0 to |listing|
      invariant notes.Keys == set n | n in listing[..i] && EndsWith(n, ".md")
      invariant forall n :: n in notes ==> notes[n] == read(n)
    {
      assert listing[..i + 1] == listing[..i] + [listing[i]];
      if EndsWith(listing[i], ".md") {
        notes := notes[listing[i] := read(listing[i])];
      }
    }
    assert listing[..|listing|] == listing;
  }

  /** A note that ingest embeds: present and not blank. */
  predicate Embeddable(notes: map<string, string>, filename: string) {
    filename in notes && !IsBlank(notes[filename])
  }

  // ---------------------------------------------------------------- ingest

  datatype UpdateOutcome =
    | Saved      // the note's vector was written under its key
    | NotFound   // no such note; a message is printed and nothing is written
    | BlankNote  // `get_embeddings([content])[0]` raised IndexError; nothing is written

  /** The cache after `update_embedding(filename)`. */
  function IngestOne(data: map<string, Vector>, notes: map<string, string>, filename: string,
                     embed: string -> Vector): (r: map<string, Vector>)
    ensures !Embeddable(notes, filename) ==> r == data
    ensures Embeddable(notes, filename) ==>
              EncodeKey(filename) in r && r[EncodeKey(filename)] == embed(notes[filename])
    ensures forall k :: k != EncodeKey(filename) ==> (k in r <==> k in data)
    ensures forall k :: k != EncodeKey(filename) && k in data ==> r[k] == data[k]
  {
    if Embeddable(notes, filename) then Put(data, filename, embed(notes[filename])) else data
  }

  /** Ingesting the same unchanged note twice leaves the cache as ingesting it once. */
  lemma IngestOneIdempotent(data: map<string, Vector>, notes: map<string, string>, filename: string,
                            embed: string -> Vector)
    ensures IngestOne(IngestOne(data, notes, filename, embed), notes, filename, embed)
            == IngestOne(data, notes, filename, embed)
  {
    if Embeddable(notes, filename) {
      PutOverwrites(data, filename, embed(notes[filename]), embed(notes[filename]));
    }
  }

  /**
   * The cache after the notes `names` have been through the bulk loop: each
   * embeddable one has its fresh vector, every other key is as in `data`.
   */
  function Refreshed(data: map<string, Vector>, notes: map<string, string>, names: set<string>,
                     embed: string -> Vector): (r: map<string, Vector>)
    ensures forall f :: f in names && Embeddable(notes, f) ==>
              EncodeKey(f) in r && r[EncodeKey(f)] == embed(notes[f])
    ensures forall k :: !(IsCacheKey(k) && NameOf(k) in names && Embeddable(notes, NameOf(k))) ==>
              (k in r <==> k in data) && (k in data ==> r[k] == data[k])
  {
    var written := set f | f in names && Embeddable(notes, f) :: EncodeKey(f);
    var r := map k | k in data.Keys + written ::
      if IsCacheKey(k) && NameOf(k) in names && Embeddable(notes, NameOf(k))
      then embed(notes[NameOf(k)]) else data[k];
    assert forall f :: f in names && Embeddable(notes, f) ==> NameOf(EncodeKey(f)) == f && EncodeKey(f) in written;
    assert forall k :: k in written ==> IsCacheKey(k) && NameOf(k) in names && Embeddable(notes, NameOf(k));
    r
  }

  /** One more turn of the bulk loop is a single ingest of that note. */
  lemma RefreshedStep(data: map<string, Vector>, notes: map<string, string>, names: set<string>,
                      f: string, embed: string -> Vector)
    ensures Refreshed(data, notes, names + {f}, embed)
            == IngestOne(Refreshed(data, notes, names, embed), notes, f, embed)
  {
    var a := Refreshed(data, notes, names + {f}, embed);
    var b := IngestOne(Refreshed(data, notes, names, embed), notes, f, embed);
    forall k ensures (k in a <==> k in b) && (k in a ==> a[k] == b[k]) {
      if k == EncodeKey(f) {
        EncodeNameOf(k);
      } else if IsCacheKey(k) {
        EncodeNameOf(k);
        assert NameOf(k) != f;
      }
    }
  }

  /** Running the bulk ingest twice over unchanged notes gives the cache of one run. */
  lemma RefreshedIdempotent(data: map<string, Vector>, notes: map<string, string>, names: set<string>,
                            embed: string -> Vector)
    ensures Refreshed(Refreshed(data, notes, names, embed), notes, names, embed)
            == Refreshed(data, notes, names, embed)
  {
    var once := Refreshed(data, notes, names, embed);
    var twice := Refreshed(once, notes, names, embed);
    forall k ensures (k in twice <==> k in once) && (k in twice ==> twice[k] == once[k]) {
      if IsCacheKey(k) && NameOf(k) in names && Embeddable(notes, NameOf(k)) {
        EncodeNameOf(k);
      }
    }
  }

  /** A bulk ingest writes no entry for a blank note and touches no key outside the notes. */
  lemma BulkIngestFrame(data: map<string, Vector>, notes: map<string, string>, embed: string -> Vector, k: string)
    requires !IsCacheKey(k) || NameOf(k) !in notes || IsBlank(notes[NameOf(k)])
    ensures var r := Refreshed(data, notes, notes.Keys, embed);
            (k in r <==> k in data) && (k in data ==> r[k] == data[k])
  {
  }

  /**
   * One blank and two non-blank notes, ingested into an empty cache: exactly the
   * two non-blank notes get an entry, and the blank one is the only skip.
   */
  lemma BulkIngestSkipsBlank(a: string, b: string, c: string, da: string, db: string, dc: string,
                             embed: string -> Vector)
    requires a != b && b != c && a != c
    requires !IsBlank(da) && IsBlank(db) && !IsBlank(dc)
    ensures var notes := map[a := da, b := db, c := dc];
            Refreshed(map[], notes, notes.Keys, embed).Keys == {EncodeKey(a), EncodeKey(c)}
    ensures var notes := map[a := da, b := db, c := dc];
            (set f | f in notes && IsBlank(notes[f])) == {b}
  {
    var notes := map[a := da, b := db, c := dc];
    var r := Refreshed(map[], notes, notes.Keys, embed);
    forall k | k in r ensures k == EncodeKey(a) || k == EncodeKey(c) {
      EncodeNameOf(k);
    }
  }

  // ---------------------------------------------------------------- dispatch

  const AllSentinel: string := "hepsi"
  const StopWord: string := "bitir"

  datatype Mode = AskMode | IngestAllMode | IngestFileMode(filename: string)

  /**
   * `run`'s branch on `args.dosya`: no value or the empty string asks questions,
   * `"hepsi"` in any letter case ingests every note, anything else ingests that file.
   */
  function Dispatch(dosya: Option<string>): (m: Mode)
    ensures m == AskMode <==> dosya == None || dosya == Some("")
    ensures m == IngestAllMode <==> dosya.Some? && SpellsIgnoringCase(dosya.value, AllSentinel)
    ensures m.IngestFileMode? ==> dosya == Some(m.filename)
  {
    match dosya
    case None => AskMode
    case Some(s) =>
      LowerMatchesIff(s, AllSentinel);
      if s == "" then AskMode
      else if ToLower(s) == AllSentinel then IngestAllMode
      else IngestFileMode(s)
  }

  /** No note (a `.md` name) is taken for the bulk sentinel, so each one can be ingested alone. */
  lemma NoteNameIsNeverSentinel(name: string)
    requires EndsWith(name, ".md")
    ensures Dispatch(Some(name)) == IngestFileMode(name)
  {
    LowerMatchesIff(name, AllSentinel);
    if |name| == 5 {
      assert name[4] == name[|name| - 3..][2];
    }
  }

  /** `text.lower() == "bitir"`: the input that ends the question loop, `bitir` in any letter case. */
  predicate IsStopWord(text: string): (stop: bool)
    ensures stop <==> SpellsIgnoringCase(text, StopWord)
  {
    LowerMatchesIff(text, StopWord);
    ToLower(text) == StopWord
  }

  // ---------------------------------------------------------------- answer

  datatype Role = System | User | Assistant

  /**
   * One message of the `chat_gpt` prompt.  What goes on the wire for it, the
   * `{"role": ..., "content": ...}` pair, is `RoleOf` and `ContentOf`.
   */
  datatype Message =
    | Instruction
    | Document(document: string)
    | Acknowledgement
    | Question(question: string)

  const SystemInstructionText: string :=
    "Sen doküman asistanısın. Dokümanı oku ve soruları cevapla. Sadece dokümanla ilgili soruları cevapla."
  const AcknowledgementText: string :=
    "Ben bir doküman asistanıyım. Yukarıdaki dokümanı okuyup ve sorularınızı cevaplayacağım. Sadece dokümanla ilgili sorularınıza cevap verebilirim, başka sorulara kesinlikle dokümanda yok diye cevap veririm."

  /** The `"role"` of a message: the two user turns are the document and the question. */
  function RoleOf(m: Message): (role: Role)
    ensures role == User <==> m.Document? || m.Question?
    ensures role == System <==> m == Instruction
  {
    match m
    case Instruction => System
    case Document(_) => User
    case Acknowledgement => Assistant
    case Question(_) => User
  }

  /** The `"content"` of a message: the caller's text for the user turns, fixed text otherwise. */
  function ContentOf(m: Message): (content: string)
    ensures m.Document? ==> content == m.document
    ensures m.Question? ==> content == m.question
  {
    match m
    case Instruction => SystemInstructionText
    case Document(d) => d
    case Acknowledgement => AcknowledgementText
    case Question(q) => q
  }

  /**
   * The message list of `chat_gpt(document, question)`: system, user, assistant
   * and user turns, with the document and the question as the two user contents.
   */
  function ChatMessages(document: string, question: string): (msgs: seq<Message>)
    ensures |msgs| == 4
    ensures RoleOf(msgs[0]) == System && RoleOf(msgs[1]) == User
            && RoleOf(msgs[2]) == Assistant && RoleOf(msgs[3]) == User
    ensures ContentOf(msgs[1]) == document && ContentOf(msgs[3]) == question
  {
    [Instruction, Document(document), Acknowledgement, Question(question)]
  }

  /**
   * The prompt on the wire: a fixed system instruction, then the document as a
   * user message, a fixed assistant acknowledgement, and the question as a user
   * message.  The only user texts the model is given are the document and the question.
   */
  lemma ChatMessagesWire(document: string, question: string)
    ensures var msgs := ChatMessages(document, question);
            |msgs| == 4
            && RoleOf(msgs[0]) == System && ContentOf(msgs[0]) == SystemInstructionText
            && RoleOf(msgs[2]) == Assistant && ContentOf(msgs[2]) == AcknowledgementText
            && forall i :: 0 <= i < |msgs| && RoleOf(msgs[i]) == User ==>
                 (i == 1 && ContentOf(msgs[i]) == document) || (i == 3 && ContentOf(msgs[i]) == question)
  {
  }

  /** The prompt's texts determine its document and question; its framing depends on neither. */
  lemma PromptDeterminesInputs(d1: string, q1: string, d2: string, q2: string)
    ensures (forall i :: 0 <= i < 4 ==>
               ContentOf(ChatMessages(d1, q1)[i]) == ContentOf(ChatMessages(d2, q2)[i]))
            <==> d1 == d2 && q1 == q2
    ensures ChatMessages(d1, q1)[0] == ChatMessages(d2, q2)[0]
    ensures ChatMessages(d1, q1)[2] == ChatMessages(d2, q2)[2]
  {
    if forall i :: 0 <= i < 4 ==> ContentOf(ChatMessages(d1, q1)[i]) == ContentOf(ChatMessages(d2, q2)[i]) {
      assert ContentOf(ChatMessages(d1, q1)[1]) == ContentOf(ChatMessages(d2, q2)[1]);
      assert ContentOf(ChatMessages(d1, q1)[3]) == ContentOf(ChatMessages(d2, q2)[3]);
    }
  }

  datatype AnswerError =
    | BlankQuestion               // `get_embeddings([text])[0]` raised IndexError
    | Unmatched(reason: MatchError) // `find_closest` failed in numpy
    | UnknownNote(name: string)   // `self.notes[note_dates[index]]` raised KeyError

  datatype Answered = Answered(note: string, answer: string)

  /** The matched candidate really is the first best one for this query vector. */
  predicate IsBestMatch(vecs: seq<Vector>, query: Vector, i: nat) {
    SameDimension(vecs, query) && IsFirstMax(Scores(vecs, query), i)
  }

  /**
   * One question of the loop in `run`: embed it, match it against the cached
   * vectors, look the matched identity up in the notes and ask the chat
   * provider with that note as the document.
   */
  function AnswerQuestion(notes: map<string, string>, noteDates: seq<string>, vecs: seq<Vector>,
                          question: string, embed: string -> Vector,
                          chat: seq<Message> -> string): (r: Result<Answered, AnswerError>)
    requires |noteDates| == |vecs|
    ensures r == Err(BlankQuestion) <==> IsBlank(question)
    ensures r.Ok? ==>
              r.value.note in noteDates && r.value.note in notes
              && r.value.answer == chat(ChatMessages(notes[r.value.note], question))
  {
    EmbedOne(question, embed);
    var qs := GetEmbeddings([question], embed);
    if qs == [] then Err(BlankQuestion)
    else
      match FindClosest(qs[0], vecs)
      case Err(e) => Err(Unmatched(e))
      case Ok(i) =>
        var name := noteDates[i];
        if name in notes then Ok(Answered(name, chat(ChatMessages(notes[name], question))))
        else Err(UnknownNote(name))
  }

  /**
   * The answer path's outcomes: a blank question, an empty cache and mismatched
   * dimensions fail before the chat provider is asked; otherwise the best
   * matching note is looked up and, when present, is the prompt's document.
   */
  lemma AnswerQuestionSpec(notes: map<string, string>, noteDates: seq<string>, vecs: seq<Vector>,
                           question: string, embed: string -> Vector, chat: seq<Message> -> string)
    requires |noteDates| == |vecs|
    ensures var r := AnswerQuestion(notes, noteDates, vecs, question, embed, chat);
            (IsBlank(question) ==> r == Err(BlankQuestion))
            && (!IsBlank(question) && vecs == [] ==> r == Err(Unmatched(EmptyIndex)))
            && (!IsBlank(question) && vecs != [] && !SameDimension(vecs, embed(question)) ==>
                  r == Err(Unmatched(DimensionMismatch)))
    ensures var r := AnswerQuestion(notes, noteDates, vecs, question, embed, chat);
            !IsBlank(question) && vecs != [] && SameDimension(vecs, embed(question)) ==>
              exists i: nat :: IsBestMatch(vecs, embed(question), i)
                          && if noteDates[i] in notes
                             then r == Ok(Answered(noteDates[i], chat(ChatMessages(notes[noteDates[i]], question))))
                             else r == Err(UnknownNote(noteDates[i]))
  {
    EmbedOne(question, embed);
    if !IsBlank(question) && vecs != [] && SameDimension(vecs, embed(question)) {
      var i := FindClosest(embed(question), vecs).value;
      assert IsBestMatch(vecs, embed(question), i);
    }
  }

  /**
   * A note whose filename contains `':'` is cached under a key that decodes to
   * another name; when that name is not a note, matching it fails the lookup.
   */
  lemma ColonNameIsLost(notes: map<string, string>, filename: string, question: string,
                        embed: string -> Vector, chat: seq<Message> -> string)
    requires ':' in filename && filename in notes
    requires DecodeKey(EncodeKey(filename)) !in notes
    ensures DecodeKey(EncodeKey(filename)) != filename
    ensures AnswerQuestion(notes, [DecodeKey(EncodeKey(filename))], [embed(question)], question, embed, chat)
            == if IsBlank(question) then Err(BlankQuestion)
               else Err(UnknownNote(DecodeKey(EncodeKey(filename))))
  {
    DecodeEncode(filename);
    var name := DecodeKey(EncodeKey(filename));
    AnswerQuestionSpec(notes, [name], [embed(question)], question, embed, chat);
  }

  /**
   * When the truncated name is itself a note, nothing signals the mix-up:
   * a match on the `':'` note's entry is answered from that other note's text.
   */
  lemma ColonNameShadows(notes: map<string, string>, filename: string, question: string,
                         embed: string -> Vector, chat: seq<Message> -> string)
    requires ':' in filename && filename in notes
    requires DecodeKey(EncodeKey(filename)) in notes
    ensures DecodeKey(EncodeKey(filename)) != filename
    ensures var name := DecodeKey(EncodeKey(filename));
            AnswerQuestion(notes, [name], [embed(question)], question, embed, chat)
            == if IsBlank(question) then Err(BlankQuestion)
               else Ok(Answered(name, chat(ChatMessages(notes[name], question))))
  {
    DecodeEncode(filename);
    var name := DecodeKey(EncodeKey(filename));
    AnswerQuestionSpec(notes, [name], [embed(question)], question, embed, chat);
  }

  datatype SessionEnd =
    | Stopped                 // the stop word was typed
    | InputExhausted          // `input()` raised EOFError
    | Failed(error: AnswerError)

  /** `question` is not the stop word and is answered with `a`. */
  predicate AnsweredBy(notes: map<string, string>, noteDates: seq<string>, vecs: seq<Vector>,
                       question: string, embed: string -> Vector, chat: seq<Message> -> string, a: Answered)
    requires |noteDates| == |vecs|
  {
    !IsStopWord(question) && AnswerQuestion(notes, noteDates, vecs, question, embed, chat) == Ok(a)
  }

  /**
   * What the question loop of `run` prints over the typed `lines`: one answer
   * per line up to the first stop word or failing question, and how it ended.
   */
  predicate IsSessionOutcome(notes: map<string, string>, noteDates: seq<string>, vecs: seq<Vector>,
                             lines: seq<string>, embed: string -> Vector, chat: seq<Message> -> string,
                             answers: seq<Answered>, end: SessionEnd)
    requires |noteDates| == |vecs|
  {
    && |answers| <= |lines|
    && (forall i :: 0 <= i < |answers| ==> AnsweredBy(notes, noteDates, vecs, lines[i], embed, chat, answers[i]))
    && (end == Stopped ==> |answers| < |lines| && IsStopWord(lines[|answers|]))
    && (end.Failed? ==>
          |answers| < |lines| && !IsStopWord(lines[|answers|])
          && AnswerQuestion(notes, noteDates, vecs, lines[|answers|], embed, chat) == Err(end.error))
    && (end == InputExhausted ==> |answers| == |lines|)
  }

  /** The loop is deterministic: the lines typed fix what it prints and how it ends. */
  lemma SessionOutcomeUnique(notes: map<string, string>, noteDates: seq<string>, vecs: seq<Vector>,
                             lines: seq<string>, embed: string -> Vector, chat: seq<Message> -> string,
                             answers1: seq<Answered>, end1: SessionEnd, answers2: seq<Answered>, end2: SessionEnd)
    requires |noteDates| == |vecs|
    requires IsSessionOutcome(notes, noteDates, vecs, lines, embed, chat, answers1, end1)
    requires IsSessionOutcome(notes, noteDates, vecs, lines, embed, chat, answers2, end2)
    ensures answers1 == answers2 && end1 == end2
  {
    assert forall i :: 0 <= i < |answers1| && i < |answers2| ==> answers1[i] == answers2[i] by {
      forall i | 0 <= i < |answers1| && i < |answers2| ensures answers1[i] == answers2[i] {
        assert AnsweredBy(notes, noteDates, vecs, lines[i], embed, chat, answers1[i]);
        assert AnsweredBy(notes, noteDates, vecs, lines[i], embed, chat, answers2[i]);
      }
    }
    if |answers1| != |answers2| {
      assert false;
    }
  }

  /** The snapshot `load_embeddings_from_redis` builds from the key list `keys`. */
  ghost predicate IsSnapshot(data: map<string, Vector>, keys: seq<string>,
                             noteDates: seq<string>, vecs: seq<Vector>) {
    |noteDates| == |keys| && |vecs| == |keys|
    && (forall k :: k in keys <==> k in data && IsCacheKey(k))
    && (forall i, j :: 0 <= i < j < |keys| ==> keys[i] != keys[j])
    && (forall i :: 0 <= i < |keys| ==>
          keys[i] in data && IsCacheKey(keys[i])
          && noteDates[i] == DecodeKey(keys[i]) && vecs[i] == data[keys[i]])
  }

  /** Every saved filename without `':'` is in the snapshot, paired with its saved vector. */
  lemma SnapshotRoundTrip(data: map<string, Vector>, keys: seq<string>, noteDates: seq<string>,
                          vecs: seq<Vector>, filename: string)
    requires IsSnapshot(data, keys, noteDates, vecs)
    requires ':' !in filename && EncodeKey(filename) in data
    ensures exists i :: 0 <= i < |noteDates| && noteDates[i] == filename && vecs[i] == data[EncodeKey(filename)]
  {
    var key := EncodeKey(filename);
    assert key in keys;
    var i :| 0 <= i < |keys| && keys[i] == key;
    DecodeEncode(filename);
    assert noteDates[i] == filename;
  }

  /** Bulk-ingesting two non-blank notes into an empty cache writes exactly their two keys. */
  lemma TwoNoteCache(a: string, b: string, da: string, db: string, embed: string -> Vector)
    requires a != b && !IsBlank(da) && !IsBlank(db)
    ensures var notes := map[a := da, b := db];
            Refreshed(map[], notes, notes.Keys, embed)
            == map[EncodeKey(a) := embed(da), EncodeKey(b) := embed(db)]
  {
    var notes := map[a := da, b := db];
    var r := Refreshed(map[], notes, notes.Keys, embed);
    var m := map[EncodeKey(a) := embed(da), EncodeKey(b) := embed(db)];
    EncodeKeyInjective(a, b);
    forall k ensures (k in r <==> k in m) && (k in r ==> r[k] == m[k]) {
      if IsCacheKey(k) {
        EncodeNameOf(k);
      }
    }
  }

  /** A snapshot of a two-key cache lists the first key at some position and only the two keys. */
  lemma TwoKeySnapshot(keys: seq<string>, noteDates: seq<string>, vecs: seq<Vector>,
                       ka: string, kb: string, va: Vector, vb: Vector) returns (ia: nat)
    requires IsCacheKey(ka) && IsCacheKey(kb)
    requires IsSnapshot(map[ka := va, kb := vb], keys, noteDates, vecs)
    ensures ia < |keys| && keys[ia] == ka && noteDates[ia] == DecodeKey(ka)
    ensures forall j :: 0 <= j < |keys| ==> (keys[j] == ka && vecs[j] == va) || (keys[j] == kb && vecs[j] == vb)
  {
    assert ka in keys;
    ia :| 0 <= ia < |keys| && keys[ia] == ka;
  }

  /** In a key list over two keys, the one whose vector scores strictly higher is the best match. */
  lemma BestOfTwo(keys: seq<string>, vecs: seq<Vector>, ka: string, kb: string,
                  va: Vector, vb: Vector, query: Vector, ia: nat)
    requires |vecs| == |keys| && ka != kb && ia < |keys| && keys[ia] == ka
    requires forall i, j :: 0 <= i < j < |keys| ==> keys[i] != keys[j]
    requires forall j :: 0 <= j < |keys| ==> (keys[j] == ka && vecs[j] == va) || (keys[j] == kb && vecs[j] == vb)
    requires |va| == |query| && |vb| == |query| && Dot(vb, query) < Dot(va, query)
    ensures IsBestMatch(vecs, query, ia)
  {
    forall j | 0 <= j < |keys| && j != ia ensures vecs[j] == vb {
      if j < ia { assert keys[j] != keys[ia]; } else { assert keys[ia] != keys[j]; }
    }
  }

  /**
   * Two notes ingested into an empty cache, then the cache loaded in whichever
   * order Redis lists it: a question whose vector scores strictly higher against
   * the first note is answered with the first note as the document.
   */
  lemma AnswerScenario(a: string, b: string, da: string, db: string, q: string,
                       embed: string -> Vector, chat: seq<Message> -> string,
                       keys: seq<string>, noteDates: seq<string>, vecs: seq<Vector>)
    requires a != b && ':' !in a && ':' !in b
    requires !IsBlank(da) && !IsBlank(db) && !IsBlank(q)
    requires var notes := map[a := da, b := db];
             IsSnapshot(Refreshed(map[], notes, notes.Keys, embed), keys, noteDates, vecs)
    requires |embed(da)| == |embed(q)| && |embed(db)| == |embed(q)|
    requires Dot(embed(db), embed(q)) < Dot(embed(da), embed(q))
    ensures AnswerQuestion(map[a := da, b := db], noteDates, vecs, q, embed, chat)
            == Ok(Answered(a, chat(ChatMessages(da, q))))
  {
    var notes := map[a := da, b := db];
    TwoNoteCache(a, b, da, db, embed);
    var ka, kb := EncodeKey(a), EncodeKey(b);
    EncodeKeyInjective(a, b);
    DecodeEncode(a);
    var ia := TwoKeySnapshot(keys, noteDates, vecs, ka, kb, embed(da), embed(db));
    BestOfTwo(keys, vecs, ka, kb, embed(da), embed(db), embed(q), ia);
    EmbedOne(q, embed);
    var r := FindClosest(embed(q), vecs);
    FirstMaxUnique(Scores(vecs, embed(q)), ia, r.value);
    assert noteDates[ia] == a && notes[a] == da;
  }

  // ---------------------------------------------------------------- the class

  datatype RunReport =
    | SingleIngest(outcome: UpdateOutcome)
    | BulkIngest(skipped: set<string>)
    | Asked(answers: seq<Answered>, end: SessionEnd)

  class NoteFinder {
    /** The notes snapshot, read once at construction and never changed. */
    const notes: map<string, string>
    /** The Redis server every `redis.Redis()` call connects to. */
    const store: VectorStore

    /** `__init__`: loads the `.md` notes of the folder listing. */
    constructor (listing: seq<string>, read: string -> string, store: VectorStore)
      ensures this.store == store
      ensures notes.Keys == set n | n in listing && EndsWith(n, ".md")
      ensures forall n :: n in notes ==> notes[n] == read(n)
    {
      var loaded := LoadNotes(listing, read);
      notes := loaded;
      this.store := store;
    }

    /** `save_embedding_to_redis`: one write, under the filename's key. */
    method SaveEmbedding(embedding: Vector, filename: string)
      modifies store
      ensures store.data == Put(old(store.data), filename, embedding)
    {
      store.Set(EncodeKey(filename), embedding);
    }

    /**
     * `load_embeddings_from_redis`: decoded identities and vectors, both built
     * from the one key list, so that index `i` of each belongs to the same key.
     */
    method LoadEmbeddings() returns (noteDates: seq<string>, embeddings: seq<Vector>, ghost keys: seq<string>)
      ensures IsSnapshot(store.data, keys, noteDates, embeddings)
      ensures forall f :: ':' !in f && EncodeKey(f) in store.data ==>
                exists i :: 0 <= i < |noteDates| && noteDates[i] == f && embeddings[i] == store.data[EncodeKey(f)]
    {
      var found := store.KeysWithPrefix(KeyPrefix);
      keys := found;
      assert forall i :: 0 <= i < |found| ==> found[i] in found;
      noteDates := seq(|found|, i requires 0 <= i < |found| && IsCacheKey(found[i]) => DecodeKey(found[i]));
      embeddings := [];
      for i := 0 to |found|
        invariant |embeddings| == i
        invariant forall j :: 0 <= j < i ==> embeddings[j] == store.data[found[j]]
      {
        var e := store.Get(found[i]);
        embeddings := embeddings + [e];
      }
      forall f | ':' !in f && EncodeKey(f) in store.data
        ensures exists i :: 0 <= i < |noteDates| && noteDates[i] == f && embeddings[i] == store.data[EncodeKey(f)]
      {
        SnapshotRoundTrip(store.data, keys, noteDates, embeddings, f);
      }
    }

    /** `update_embedding(filename)`. */
    method UpdateEmbedding(filename: string, embed: string -> Vector) returns (outcome: UpdateOutcome)
      modifies store
      ensures outcome == if filename !in notes then NotFound
                         else if IsBlank(notes[filename]) then BlankNote
                         else Saved
      ensures store.data == IngestOne(old(store.data), notes, filename, embed)
    {
      if filename !in notes {
        outcome := NotFound;
        return;
      }
      var content := notes[filename];
      EmbedOne(content, embed);
      var embeddings := GetEmbeddings([content], embed);
      if embeddings == [] {
        assert !Embeddable(notes, filename);
        outcome := BlankNote;
        return;
      }
      assert Embeddable(notes, filename) && embeddings[0] == embed(content);
      SaveEmbedding(embeddings[0], filename);
      outcome := Saved;
    }

    /** One turn of the loop in `update_all_embeddings`: a non-blank note is embedded and saved. */
    method IngestListed(f: string, embed: string -> Vector) returns (blank: bool)
      requires f in notes
      modifies store
      ensures blank <==> IsBlank(notes[f])
      ensures store.data == IngestOne(old(store.data), notes, f, embed)
    {
      var content := notes[f];
      StripEmptyIffBlank(content);
      EmbedOne(content, embed);
      if Strip(content) != [] {
        var embeddings := GetEmbeddings([content], embed);
        SaveEmbedding(embeddings[0], f);
        blank := false;
      } else {
        blank := true;
      }
    }

    /**
     * `update_all_embeddings`: every non-blank note is embedded and saved, every
     * blank one is reported as skipped.  Python walks the notes in insertion
     * order; distinct notes have distinct keys, so the order does not matter.
     */
    method UpdateAllEmbeddings(embed: string -> Vector) returns (skipped: set<string>)
      modifies store
      ensures store.data == Refreshed(old(store.data), notes, notes.Keys, embed)
      ensures skipped == set f | f in notes && IsBlank(notes[f])
    {
      var remaining := notes.Keys;
      ghost var done: set<string> := {};
      skipped := {};
      while remaining != {}
        invariant remaining <= notes.Keys && done == notes.Keys - remaining
        invariant store.data == Refreshed(old(store.data), notes, done, embed)
        invariant forall g :: g in skipped <==> g in done && IsBlank(notes[g])
        decreases remaining
      {
        var f :| f in remaining;
        RefreshedStep(old(store.data), notes, done, f, embed);
        var blank := IngestListed(f, embed);
        if blank {
          skipped := skipped + {f};
        }
        remaining := remaining - {f};
        done := done + {f};
      }
      assert done == notes.Keys;
      assert skipped == set f | f in notes && IsBlank(notes[f]) by {
        forall g ensures g in skipped <==> g in notes && IsBlank(notes[g]) {
        }
      }
    }

    /** The `while True` question loop: answers until the stop word, an error or the end of input. */
    method AskQuestions(noteDates: seq<string>, vecs: seq<Vector>, lines: seq<string>,
                        embed: string -> Vector, chat: seq<Message> -> string)
      returns (answers: seq<Answered>, end: SessionEnd)
      requires |noteDates| == |vecs|
      ensures IsSessionOutcome(notes, noteDates, vecs, lines, embed, chat, answers, end)
    {
      answers := [];
      var i := 0;
      while true
        invariant 0 <= i <= |lines| && |answers| == i
        invariant forall j :: 0 <= j < i ==> AnsweredBy(notes, noteDates, vecs, lines[j], embed, chat, answers[j])
        decreases |lines| - i
      {
        if i == |lines| {
          end := InputExhausted;
          return;
        }
        var text := lines[i];
        if IsStopWord(text) {
          end := Stopped;
          return;
        }
        var r := AnswerQuestion(notes, noteDates, vecs, text, embed, chat);
        if r.Err? {
          end := Failed(r.error);
          return;
        }
        answers := answers + [r.value];
        i := i + 1;
      }
    }

    /** `run(args)`: ingest when `--dosya` is given, otherwise load the cache and ask questions. */
    method Run(dosya: Option<string>, lines: seq<string>, embed: string -> Vector,
               chat: seq<Message> -> string)
      returns (report: RunReport, ghost keys: seq<string>, ghost noteDates: seq<string>, ghost vecs: seq<Vector>)
      modifies store
      ensures Dispatch(dosya) == IngestAllMode ==>
                store.data == Refreshed(old(store.data), notes, notes.Keys, embed)
                && report == BulkIngest(set f | f in notes && IsBlank(notes[f]))
      ensures Dispatch(dosya).IngestFileMode? ==>
                store.data == IngestOne(old(store.data), notes, dosya.value, embed)
                && report.SingleIngest?
                && (report.outcome == Saved <==> Embeddable(notes, dosya.value))
                && (report.outcome == NotFound <==> dosya.value !in notes)
      ensures Dispatch(dosya) == AskMode ==>
                store.data == old(store.data)
                && IsSnapshot(store.data, keys, noteDates, vecs)
                && report.Asked?
                && IsSessionOutcome(notes, noteDates, vecs, lines, embed, chat, report.answers, report.end)
    {
      keys, noteDates, vecs := [], [], [];
      match Dispatch(dosya)
      case IngestAllMode =>
        var skipped := UpdateAllEmbeddings(embed);
        report := BulkIngest(skipped);
      case IngestFileMode(filename) =>
        var outcome := UpdateEmbedding(filename, embed);
        report := SingleIngest(outcome);
      case AskMode =>
        var dates, embeddings, found := LoadEmbeddings();
        var answers, end := AskQuestions(dates, embeddings, lines, embed, chat);
        keys, noteDates, vecs := found, dates, embeddings;
        report := Asked(answers, end);
    }
  }
}
