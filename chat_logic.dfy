/**
 * The in-memory document-context store of the chat backend and the prompt it
 * builds for every chat request.
 *
 * The store has two pieces of state: a dictionary from file name to file
 * content, and an optional "current" file name. Uploading a document writes
 * it into the dictionary and makes it current; resetting the context forgets
 * which document is current but keeps every document. A chat request reads
 * both to decide whether the current document is quoted in front of the
 * prompt, then hands the prompt to an external translator.
 */
module ChatLogic {
  import opened Wrappers

  /** The abstract value of the store: the document dictionary and the current name. */
  datatype Store = Store(documents: map<string, string>, currentDoc: Option<string>)

  /** The store when the backend starts: no documents, no current document. */
  const Initial := Store(map[], None)

  /** The target language used when a request names none. */
  const DefaultTargetLang := "english"

  const ContextHeader := "Use the following document to answer questions:\n"
  const ContextTrailer := "\n\n"
  const AssistantIntro := "You are an AI assistant. Answer the user's question clearly in "
  const UserAskedMarker := "\nUser asked: "
  /** "⚠️ Translation Error: ", the warning sign followed by the variation selector. */
  const TranslationErrorPrefix := "\U{26A0}\U{FE0F} Translation Error: "

  /** What the external translator does with one request: it returns a text or raises an error. */
  datatype TranslatorOutcome = Translated(text: string) | Raised(error: string)

  // ---------------------------------------------------------------------------
  // The two state-changing operations, on the abstract value

  /** Adds or overwrites the document `name` and makes it the current one. */
  function SetDoc(s: Store, name: string, content: string): (r: Store)
    ensures name in r.documents && r.documents[name] == content
    ensures r.currentDoc == Some(name)
    ensures r.documents.Keys == s.documents.Keys + {name}
    ensures forall n :: n in s.documents && n != name ==> r.documents[n] == s.documents[n]
  {
    Store(s.documents[name := content], Some(name))
  }

  /** Forgets which document is current; every document stays stored. */
  function ClearCurrent(s: Store): (r: Store)
    ensures r.currentDoc == None
    ensures r.documents == s.documents
  {
    s.(currentDoc := None)
  }

  // ---------------------------------------------------------------------------
  // The prompt built for a chat request

  /** Python truthiness of a value that is either `None` or a string. */
  predicate IsTruthy(name: Option<string>)
  {
    name.Some? && name.value != ""
  }

  /** The document-context prefix: the current document quoted, or nothing. */
  function ContextText(s: Store): (r: string)
    ensures r != "" <==> IsTruthy(s.currentDoc) && s.currentDoc.value in s.documents
    ensures r != "" ==>
      |r| == |ContextHeader| + |s.documents[s.currentDoc.value]| + |ContextTrailer| &&
      r[..|ContextHeader|] == ContextHeader &&
      r[|ContextHeader|..|r| - |ContextTrailer|] == s.documents[s.currentDoc.value] &&
      r[|r| - |ContextTrailer|..] == ContextTrailer
  {
    if IsTruthy(s.currentDoc) && s.currentDoc.value in s.documents then
      ContextHeader + s.documents[s.currentDoc.value] + ContextTrailer
    else
      ""
  }

  /** The system prompt: the context prefix, then the instruction naming the language. */
  function SystemPrompt(s: Store, targetLang: string): (r: string)
    ensures var k := |ContextText(s)|;
      |r| == k + |AssistantIntro| + |targetLang| + 1 &&
      r[..k] == ContextText(s) &&
      r[k..k + |AssistantIntro|] == AssistantIntro &&
      r[k + |AssistantIntro|..|r| - 1] == targetLang &&
      r[|r| - 1] == '.'
  {
    var ctx := ContextText(s);
    var head := ctx + AssistantIntro;
    assert head[..|ctx|] == ctx;
    assert head[|ctx|..] == AssistantIntro;
    var r := head + targetLang + ".";
    assert r[..|head|] == head;
    assert r[|head|..|r| - 1] == targetLang;
    r
  }

  /** The untranslated reply: the system prompt, then the user's question. */
  function ResponseText(s: Store, userMessage: string, targetLang: string): (r: string)
    ensures var m := |SystemPrompt(s, targetLang)|;
      |r| == m + |UserAskedMarker| + |userMessage| &&
      r[..m] == SystemPrompt(s, targetLang) &&
      r[..|ContextText(s)|] == ContextText(s) &&
      r[m..m + |UserAskedMarker|] == UserAskedMarker &&
      r[m + |UserAskedMarker|..] == userMessage
  {
    SystemPrompt(s, targetLang) + UserAskedMarker + userMessage
  }

  /**
   * The reply to a chat request: the translator's text when it succeeds, or a
   * warning carrying the translator's error text when it raises.
   */
  function Reply(s: Store, userMessage: string, targetLang: string,
                 translate: (string, string) -> TranslatorOutcome): (r: string)
    ensures translate(targetLang, ResponseText(s, userMessage, targetLang)).Translated? ==>
      r == translate(targetLang, ResponseText(s, userMessage, targetLang)).text
    ensures translate(targetLang, ResponseText(s, userMessage, targetLang)).Raised? ==>
      r == TranslationErrorPrefix + translate(targetLang, ResponseText(s, userMessage, targetLang)).error
  {
    match translate(targetLang, ResponseText(s, userMessage, targetLang))
    case Translated(text) => text
    case Raised(error) => TranslationErrorPrefix + error
  }

  // ---------------------------------------------------------------------------
  // Properties of the prompt

  /** For a fixed store and language, different questions give different untranslated replies. */
  lemma ResponseDeterminesMessage(s: Store, m1: string, m2: string, targetLang: string)
    requires ResponseText(s, m1, targetLang) == ResponseText(s, m2, targetLang)
    ensures m1 == m2
  {
  }

  /**
   * Only the current document can reach the prompt: two stores with the same
   * current name that agree on that one entry give the same untranslated
   * reply, whatever else they hold.
   */
  lemma OnlyCurrentDocumentMatters(s1: Store, s2: Store, userMessage: string, targetLang: string)
    requires s1.currentDoc == s2.currentDoc
    requires s1.currentDoc.Some? ==>
      (s1.currentDoc.value in s1.documents <==> s1.currentDoc.value in s2.documents)
    requires s1.currentDoc.Some? && s1.currentDoc.value in s1.documents ==>
      s1.documents[s1.currentDoc.value] == s2.documents[s1.currentDoc.value]
    ensures ResponseText(s1, userMessage, targetLang) == ResponseText(s2, userMessage, targetLang)
  {
  }

  /** After a document with a non-empty name is uploaded, every prompt quotes it. */
  lemma UploadedDocumentIsQuoted(s: Store, name: string, content: string,
                                 userMessage: string, targetLang: string)
    requires name != ""
    ensures var r := ResponseText(SetDoc(s, name, content), userMessage, targetLang);
      var quoted := ContextHeader + content + ContextTrailer;
      |quoted| <= |r| && r[..|quoted|] == quoted
  {
  }

  /**
   * A document uploaded under the empty name is stored and made current, but
   * the empty name is falsy, so it never contributes context.
   */
  lemma EmptyNameNeverContributes(s: Store, content: string)
    ensures var t := SetDoc(s, "", content);
      "" in t.documents && t.documents[""] == content &&
      t.currentDoc == Some("") && ContextText(t) == ""
  {
  }

  /** After a reset no prompt carries a document, yet every document is still stored. */
  lemma ResetDropsContext(s: Store, userMessage: string, targetLang: string)
    ensures ClearCurrent(s).documents == s.documents
    ensures ResponseText(ClearCurrent(s), userMessage, targetLang) ==
      AssistantIntro + targetLang + "." + UserAskedMarker + userMessage
  {
  }

  // ---------------------------------------------------------------------------
  // Sequences of calls: the store lives for the whole life of the backend

  /** One state-changing call on the store. */
  datatype Call = UploadCall(name: string, content: string) | ResetCall

  /** The store after one call. */
  function Step(s: Store, c: Call): (r: Store)
    ensures r.documents.Keys == s.documents.Keys + (if c.UploadCall? then {c.name} else {})
    ensures r.currentDoc == (if c.UploadCall? then Some(c.name) else None)
  {
    match c
    case UploadCall(name, content) => SetDoc(s, name, content)
    case ResetCall => ClearCurrent(s)
  }

  /** The store after the calls `cs`, in order, starting from `s`. */
  function Run(s: Store, cs: seq<Call>): (r: Store)
    ensures s.documents.Keys <= r.documents.Keys
    ensures cs == [] ==> r == s
    decreases |cs|
  {
    if cs == [] then s else Run(Step(s, cs[0]), cs[1..])
  }

  /** The names uploaded by the calls `cs`. */
  function UploadedNames(cs: seq<Call>): (r: set<string>)
    decreases |cs|
  {
    if cs == [] then {}
    else (if cs[0].UploadCall? then {cs[0].name} else {}) + UploadedNames(cs[1..])
  }

  /** Whether some call in `cs` uploads under `name`. */
  predicate Uploads(cs: seq<Call>, name: string)
  {
    exists j :: 0 <= j < |cs| && cs[j].UploadCall? && cs[j].name == name
  }

  /** Running two batches of calls is running their concatenation. */
  lemma {:induction false} RunAppend(s: Store, a: seq<Call>, b: seq<Call>)
    ensures Run(s, a + b) == Run(Run(s, a), b)
    decreases |a|
  {
    if a == [] {
      assert a + b == b;
    } else {
      assert (a + b)[1..] == a[1..] + b;
      RunAppend(Step(s, a[0]), a[1..], b);
    }
  }

  /** No call removes a document: the stored names are the initial ones plus every uploaded name. */
  lemma {:induction false} RunNeverForgets(s: Store, cs: seq<Call>)
    ensures Run(s, cs).documents.Keys == s.documents.Keys + UploadedNames(cs)
    decreases |cs|
  {
    if cs != [] {
      RunNeverForgets(Step(s, cs[0]), cs[1..]);
    }
  }

  /** An entry that no call uploads keeps its content. */
  lemma {:induction false} RunKeepsUntouched(s: Store, cs: seq<Call>, name: string)
    requires name in s.documents
    requires !Uploads(cs, name)
    ensures name in Run(s, cs).documents
    ensures Run(s, cs).documents[name] == s.documents[name]
    decreases |cs|
  {
    if cs != [] {
      assert !Uploads(cs[1..], name) by {
        forall j | 0 <= j < |cs[1..]| ensures !(cs[1..][j].UploadCall? && cs[1..][j].name == name) {
          assert cs[1..][j] == cs[j + 1];
        }
      }
      RunKeepsUntouched(Step(s, cs[0]), cs[1..], name);
    }
  }

  /** The last upload under a name decides its content, however many calls follow. */
  lemma {:induction false} RunLastUploadWins(s: Store, cs: seq<Call>, i: nat)
    requires i < |cs| && cs[i].UploadCall?
    requires !Uploads(cs[i + 1..], cs[i].name)
    ensures cs[i].name in Run(s, cs).documents
    ensures Run(s, cs).documents[cs[i].name] == cs[i].content
  {
    assert cs == cs[..i] + [cs[i]] + cs[i + 1..];
    RunAppend(s, cs[..i] + [cs[i]], cs[i + 1..]);
    RunAppend(s, cs[..i], [cs[i]]);
    var t := Run(Run(s, cs[..i]), [cs[i]]);
    assert t == SetDoc(Run(s, cs[..i]), cs[i].name, cs[i].content);
    RunKeepsUntouched(t, cs[i + 1..], cs[i].name);
  }

  /** The current name is set by the last call: its name after an upload, none after a reset. */
  lemma {:induction false} RunCurrentFollowsLastCall(s: Store, cs: seq<Call>)
    requires cs != []
    ensures cs[|cs| - 1].UploadCall? ==> Run(s, cs).currentDoc == Some(cs[|cs| - 1].name)
    ensures cs[|cs| - 1].ResetCall? ==> Run(s, cs).currentDoc == None
    decreases |cs|
  {
    if |cs| > 1 {
      assert cs[1..][|cs[1..]| - 1] == cs[|cs| - 1];
      RunCurrentFollowsLastCall(Step(s, cs[0]), cs[1..]);
    }
  }

  /** A current name, when there is one, is the name of a stored document. */
  predicate CurrentIsStored(s: Store)
  {
    s.currentDoc.Some? ==> s.currentDoc.value in s.documents
  }

  /** Every call keeps the current name pointing at a stored document. */
  lemma {:induction false} RunKeepsCurrentStored(s: Store, cs: seq<Call>)
    requires CurrentIsStored(s)
    ensures CurrentIsStored(Run(s, cs))
    decreases |cs|
  {
    if cs != [] {
      RunKeepsCurrentStored(Step(s, cs[0]), cs[1..]);
    }
  }

  /**
   * In every store the backend can reach, the current name is stored, so the
   * membership half of the context test never fails: only the empty name
   * (or no name) turns the context off.
   */
  lemma ReachableContextFollowsTruthiness(cs: seq<Call>)
    ensures CurrentIsStored(Run(Initial, cs))
    ensures ContextText(Run(Initial, cs)) != "" <==> IsTruthy(Run(Initial, cs).currentDoc)
  {
    RunKeepsCurrentStored(Initial, cs);
  }

  // ---------------------------------------------------------------------------
  // The store as the backend holds it: state updated in place

  class ChatStore {
    var documents: map<string, string>
    var currentDoc: Option<string>

    /** The abstract value of this store. */
    function State(): (r: Store)
      reads this
    {
      Store(documents, currentDoc)
    }

    constructor ()
      ensures State() == Initial
    {
      documents := map[];
      currentDoc := None;
    }

    /** Adds or overwrites the document `name` and makes it current. */
    method SetCurrentDoc(name: string, content: string)
      modifies this
      ensures State() == SetDoc(old(State()), name, content)
    {
      documents := documents[name := content];
      currentDoc := Some(name);
    }

    /** Forgets the current document; the stored documents are untouched. */
    method ResetContext()
      modifies this`currentDoc
      ensures State() == ClearCurrent(old(State()))
    {
      currentDoc := None;
    }

    /**
     * Answers a chat request. Reads the store without changing it, builds the
     * prompt, and passes it to `translate`, turning a raised error into a
     * warning text.
     */
    method GetResponse(userMessage: string, translate: (string, string) -> TranslatorOutcome,
                       targetLang: string := DefaultTargetLang)
      returns (reply: string)
      ensures reply == Reply(State(), userMessage, targetLang, translate)
    {
      var contextText := "";
      if IsTruthy(currentDoc) && currentDoc.value in documents {
        contextText := ContextHeader + documents[currentDoc.value] + ContextTrailer;
      }
      var systemPrompt := contextText + AssistantIntro + targetLang + ".";
      var responseText := systemPrompt + UserAskedMarker + userMessage;
      var outcome := translate(targetLang, responseText);
      match outcome {
        case Translated(text) => reply := text;
        case Raised(error) => reply := TranslationErrorPrefix + error;
      }
    }
  }
}
