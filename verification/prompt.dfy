/**
 * The prompt builder (`prepareSmartQuery`): the trimmed query, classified;
 * a canned reply short-circuits with an empty prompt, otherwise a context
 * block naming the first three staged files and a category instruction are
 * wrapped around the query.
 */
module Prompt {
  import opened Wrappers
  import opened Text
  import opened Classifier
  import ClassifierLaws
  import opened Chat
  import opened Staging

  const ContextLead: string := "\n\nCONTEXT: Analyze these Framer files: "
  const ContextTail: string := "\nGenerate compatible code components."
  const IncludeLine: string := "\nInclude: PropertyControls, responsive design, smooth animations, best practices."

  /** The instruction opening a prompt for a detected category. */
  function Header(c: Category): string {
    "Create a professional Framer " + Name(c) + " component. "
  }

  /** `files.slice(0, 3)`: at most the first three. */
  function FirstThree(names: seq<string>): (r: seq<string>)
    ensures |r| == if |names| < 3 then |names| else 3
    ensures r <= names
  {
    names[..if |names| < 3 then |names| else 3]
  }

  /** The appended context block naming the staged files. */
  function ContextBlock(names: seq<string>): string {
    ContextLead + Join(FirstThree(names), ", ") + ContextTail
  }

  /** The query, followed by the context block when files are staged. */
  function WithFiles(query: string, names: seq<string>): string {
    if |names| > 0 then query + ContextBlock(names) else query
  }

  /** The prompt built from the trimmed query, its analysis and the staged file names. */
  function Augment(query: string, a: Analysis, names: seq<string>): string {
    if a.Instant? then ""
    else if a.Detected? then Header(a.category) + WithFiles(query, names) + IncludeLine
    else WithFiles(query, names)
  }

  /**
   * The shape of a prompt: empty for a canned reply; the bare query when
   * nothing was detected and no file is staged; the context block after
   * the query when files are staged; the category instruction in front and
   * the "Include" line at the end when a category was detected. The prompt
   * is empty only for a canned reply or an empty query with nothing else to say.
   */
  lemma PromptShape(query: string, a: Analysis, names: seq<string>)
    ensures a.Instant? ==> Augment(query, a, names) == ""
    ensures a.Uncertain? && |names| == 0 ==> Augment(query, a, names) == query
    ensures a.Uncertain? && |names| > 0 ==> Augment(query, a, names) == query + ContextBlock(names)
    ensures a.Detected? ==> Header(a.category) <= Augment(query, a, names)
    ensures a.Detected? ==> HasSuffix(Augment(query, a, names), IncludeLine)
    ensures !a.Instant? && |names| > 0 ==> Contains(Augment(query, a, names), ContextBlock(names))
    ensures Augment(query, a, names) == "" <==> a.Instant? || (a.Uncertain? && query == "" && |names| == 0)
  {
    var p := Augment(query, a, names);
    var withFiles := WithFiles(query, names);
    if |names| > 0 {
      assert Contains(ContextBlock(names), ContextBlock(names)) by {
        assert ContextBlock(names) <= ContextBlock(names);
      }
      ContainsInAppend(query, ContextBlock(names), "", ContextBlock(names));
      assert query + ContextBlock(names) + "" == withFiles;
    }
    if a.Detected? {
      assert p == Header(a.category) + withFiles + IncludeLine;
      assert p[|p| - |IncludeLine|..] == IncludeLine;
      if |names| > 0 {
        ContainsInAppend(Header(a.category), withFiles, IncludeLine, ContextBlock(names));
      }
    }
  }

  /** A prompt built for a category request names the detected category. */
  lemma DetectedPromptNamesCategory(query: string, c: Category, names: seq<string>)
    ensures Contains(Augment(query, Detected(c), names), Name(c))
  {
    var h := Header(c);
    var p := Augment(query, Detected(c), names);
    assert Contains(Name(c), Name(c));
    ContainsInAppend("Create a professional Framer ", Name(c), " component. ", Name(c));
    SplitConcat(h, WithFiles(query, names), IncludeLine);
    ContainsInPrefix(h, p, Name(c));
  }

  /**
   * Reads the query back out of a prompt built for the same analysis and
   * files, or reports that the prompt does not have that shape.
   */
  function Unwrap(p: string, a: Analysis, names: seq<string>): Option<string> {
    if a.Instant? then None
    else
      var body :=
        if a.Uncertain? then Some(p)
        else if Header(a.category) <= p && HasSuffix(p[|Header(a.category)|..], IncludeLine)
        then Some(p[|Header(a.category)|..|p| - |IncludeLine|])
        else None;
      match body
      case None => None
      case Some(b) =>
        if |names| == 0 then Some(b)
        else if HasSuffix(b, ContextBlock(names)) then Some(b[..|b| - |ContextBlock(names)|])
        else None
  }

  /** Whatever the analysis and files, the query sits in the prompt verbatim and can be read back. */
  lemma UnwrapAugment(query: string, a: Analysis, names: seq<string>)
    requires !a.Instant?
    ensures Unwrap(Augment(query, a, names), a, names) == Some(query)
  {
    UnwrapBody(query, names);
    if a.Detected? {
      UnwrapHeader(a.category, WithFiles(query, names), names);
    }
  }

  /** Without a category the query is read back from in front of the context block. */
  lemma UnwrapBody(query: string, names: seq<string>)
    ensures Unwrap(WithFiles(query, names), Uncertain, names) == Some(query)
  {
    if |names| > 0 {
      SplitConcat("", query, ContextBlock(names));
    }
  }

  /** With a category the instruction and the "Include" line are stripped first. */
  lemma UnwrapHeader(c: Category, w: string, names: seq<string>)
    ensures Unwrap(Header(c) + w + IncludeLine, Detected(c), names) == Unwrap(w, Uncertain, names)
  {
    SplitConcat(Header(c), w, IncludeLine);
  }

  /** The names of the staged files, in order. */
  function Names(files: seq<FileEntry>): (r: seq<string>)
    ensures |r| == |files|
    ensures forall i :: 0 <= i < |files| ==> r[i] == files[i].name
  {
    seq(|files|, i requires 0 <= i < |files| => files[i].name)
  }

  /** The result of `prepareSmartQuery`: the prompt and the messages it adds on the way. */
  datatype Prepared = Prepared(prompt: string, replies: seq<Message>)

  /** `prepareSmartQuery` on the current input and staged files. */
  function Prepare(input: string, files: seq<FileEntry>): Prepared {
    var query := Trim(input);
    var a := Analyze(query);
    var replies := if a.Instant? then [BotText(Response(a.kind)), UserText(InstantSuggestion(a.kind))] else [];
    Prepared(Augment(query, a, Names(files)), replies)
  }

  /** A non-empty prompt comes with no canned messages and gives the trimmed input back. */
  lemma PreparedForDispatch(input: string, files: seq<FileEntry>)
    requires Prepare(input, files).prompt != ""
    ensures Prepare(input, files).replies == []
    ensures Unwrap(Prepare(input, files).prompt, Analyze(Trim(input)), Names(files)) == Some(Trim(input))
  {
    var q := Trim(input);
    var a := Analyze(q);
    assert !a.Instant?;
    UnwrapAugment(q, a, Names(files));
  }

  /**
   * Preparing yields the empty prompt exactly for a canned reply or for a
   * blank input with no staged file; a canned reply adds the bot's answer
   * and its suggestion and nothing else does; any other prompt carries the
   * trimmed input verbatim.
   */
  lemma PrepareSpec(input: string, files: seq<FileEntry>)
    ensures Prepare(input, files).prompt == "" <==>
              Analyze(Trim(input)).Instant? || (Trim(input) == "" && |files| == 0)
    ensures Prepare(input, files).replies != [] <==> Analyze(Trim(input)).Instant?
    ensures Analyze(Trim(input)).Instant? ==>
              Prepare(input, files).replies
                == [BotText(Response(Analyze(Trim(input)).kind)), UserText(InstantSuggestion(Analyze(Trim(input)).kind))]
    ensures !Analyze(Trim(input)).Instant? ==>
              Unwrap(Prepare(input, files).prompt, Analyze(Trim(input)), Names(files)) == Some(Trim(input))
  {
    var query := Trim(input);
    var a := Analyze(query);
    PromptShape(query, a, Names(files));
    if query == "" {
      ClassifierLaws.EmptyIsUncertain();
    }
    if !a.Instant? {
      UnwrapAugment(query, a, Names(files));
    }
  }
}
