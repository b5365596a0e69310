/**
 * `ChatPromptTemplate.from_messages`: a list of parts, each a fixed message, a
 * message whose text ends in one `{variable}`, or a `MessagesPlaceholder` that
 * splices in a list of messages. Formatting first checks that every variable
 * is bound, then renders the parts in order; a placeholder bound to anything
 * but a list of messages is refused.
 */
module Prompts {
  import opened Wrappers
  import opened Schema

  /** What an input variable can be bound to. */
  datatype Value =
    | Text(text: string)
    | MessageList(messages: seq<Message>)
    | WholeInput(input: ChainInput)

  datatype Part =
    | Fixed(role: Role, text: string)
    | Slot(role: Role, prefix: string, name: string)
    | Placeholder(name: string)

  datatype PromptError = MissingVariables(names: set<string>) | NotAMessageList(name: string)

  /** The input variables a template mentions. */
  function Variables(t: seq<Part>): set<string>
    decreases |t|
  {
    if |t| == 0 then {}
    else (if t[0].Fixed? then {} else {t[0].name}) + Variables(t[1..])
  }

  /**
   * The text a `{variable}` slot receives. Python's `str()` of a value that
   * is not a string is not modelled; such a value renders as a fixed marker.
   */
  function SlotText(v: Value): string {
    if v.Text? then v.text else "<non-string value>"
  }

  function FormatPart(p: Part, b: map<string, Value>): Result<seq<Message>, PromptError> {
    match p
    case Fixed(role, text) => Success([Message(role, text)])
    case Slot(role, prefix, name) =>
      if name in b then Success([Message(role, prefix + SlotText(b[name]))])
      else Failure(MissingVariables({name}))
    case Placeholder(name) =>
      if name in b && b[name].MessageList? then Success(b[name].messages)
      else if name in b then Failure(NotAMessageList(name))
      else Failure(MissingVariables({name}))
  }

  function FormatParts(t: seq<Part>, b: map<string, Value>): Result<seq<Message>, PromptError>
    decreases |t|
  {
    if |t| == 0 then Success([])
    else
      var first := FormatPart(t[0], b);
      if first.Failure? then first
      else
        var rest := FormatParts(t[1..], b);
        if rest.Failure? then rest else Success(first.value + rest.value)
  }

  /** `template.format_messages(**bindings)`. */
  function Format(t: seq<Part>, b: map<string, Value>): Result<seq<Message>, PromptError> {
    if Variables(t) <= b.Keys then FormatParts(t, b)
    else Failure(MissingVariables(Variables(t) - b.Keys))
  }

  // ---------------------------------------------------------------------------
  // Templates whose variables are all bound to values of the right kind

  /** The part's variable, if any, is bound to a value of the kind it needs. */
  predicate WellBound(p: Part, b: map<string, Value>) {
    match p
    case Fixed(_, _) => true
    case Slot(_, _, name) => name in b && b[name].Text?
    case Placeholder(name) => name in b && b[name].MessageList?
  }

  predicate AllWellBound(t: seq<Part>, b: map<string, Value>) {
    forall i :: 0 <= i < |t| ==> WellBound(t[i], b)
  }

  /** The messages one well-bound part renders to. */
  function Rendered(p: Part, b: map<string, Value>): seq<Message>
    requires WellBound(p, b)
  {
    match p
    case Fixed(role, text) => [Message(role, text)]
    case Slot(role, prefix, name) => [Message(role, prefix + b[name].text)]
    case Placeholder(name) => b[name].messages
  }

  function RenderAll(t: seq<Part>, b: map<string, Value>): seq<Message>
    requires AllWellBound(t, b)
    decreases |t|
  {
    if |t| == 0 then [] else Rendered(t[0], b) + RenderAll(t[1..], b)
  }

  lemma {:induction false} VariablesBound(t: seq<Part>, b: map<string, Value>)
    requires AllWellBound(t, b)
    ensures Variables(t) <= b.Keys
    decreases |t|
  {
    if |t| > 0 {
      VariablesBound(t[1..], b);
    }
  }

  lemma {:induction false} FormatPartsWellBound(t: seq<Part>, b: map<string, Value>)
    requires AllWellBound(t, b)
    ensures FormatParts(t, b) == Success(RenderAll(t, b))
    decreases |t|
  {
    if |t| > 0 {
      FormatPartsWellBound(t[1..], b);
      assert WellBound(t[0], b);
      assert FormatPart(t[0], b) == Success(Rendered(t[0], b)) by {
        match t[0]
        case Fixed(_, _) =>
        case Slot(role, prefix, name) =>
        case Placeholder(name) =>
      }
    }
  }

  /** A template whose variables are all bound formats without error, part by part. */
  lemma FormatWellBound(t: seq<Part>, b: map<string, Value>)
    requires AllWellBound(t, b)
    ensures Format(t, b) == Success(RenderAll(t, b))
  {
    VariablesBound(t, b);
    FormatPartsWellBound(t, b);
  }

  lemma RenderTwo(p1: Part, p2: Part, b: map<string, Value>)
    requires WellBound(p1, b) && WellBound(p2, b)
    ensures AllWellBound([p1, p2], b)
    ensures RenderAll([p1, p2], b) == Rendered(p1, b) + Rendered(p2, b)
  {
    var t := [p1, p2];
    var u := [p2];
    assert u[1..] == [];
    assert RenderAll(u, b) == Rendered(p2, b) + RenderAll([], b);
    assert Rendered(p2, b) + [] == Rendered(p2, b);
    assert t[1..] == u;
  }

  lemma RenderThree(p1: Part, p2: Part, p3: Part, b: map<string, Value>)
    requires WellBound(p1, b) && WellBound(p2, b) && WellBound(p3, b)
    ensures AllWellBound([p1, p2, p3], b)
    ensures RenderAll([p1, p2, p3], b) == Rendered(p1, b) + Rendered(p2, b) + Rendered(p3, b)
  {
    var t := [p1, p2, p3];
    assert t[1..] == [p2, p3];
    RenderTwo(p2, p3, b);
  }

  lemma RenderFour(p1: Part, p2: Part, p3: Part, p4: Part, b: map<string, Value>)
    requires WellBound(p1, b) && WellBound(p2, b) && WellBound(p3, b) && WellBound(p4, b)
    ensures AllWellBound([p1, p2, p3, p4], b)
    ensures RenderAll([p1, p2, p3, p4], b)
         == Rendered(p1, b) + Rendered(p2, b) + Rendered(p3, b) + Rendered(p4, b)
  {
    var t := [p1, p2, p3, p4];
    assert t[1..] == [p2, p3, p4];
    RenderThree(p2, p3, p4, b);
  }

  // ---------------------------------------------------------------------------
  // A prompt followed by a chat model and `StrOutputParser`

  /** A placeholder bound to something other than a list of messages. */
  predicate Misbound(p: Part, b: map<string, Value>) {
    p.Placeholder? && p.name in b && !b[p.name].MessageList?
  }

  /** Part `i` is the first misbound placeholder of `t`. */
  predicate FirstMisbound(t: seq<Part>, b: map<string, Value>, i: nat) {
    i < |t| && Misbound(t[i], b) && forall k :: 0 <= k < i ==> !Misbound(t[k], b)
  }

  /**
   * With every variable bound, formatting stops at the first misbound
   * placeholder and names it.
   */
  lemma {:induction false} FormatPartsRefuses(t: seq<Part>, b: map<string, Value>, i: nat)
    requires Variables(t) <= b.Keys
    requires FirstMisbound(t, b, i)
    ensures FormatParts(t, b) == Failure(NotAMessageList(t[i].name))
    decreases |t|
  {
    if i > 0 {
      assert !Misbound(t[0], b);
      assert t[0].Fixed? || t[0].name in Variables(t);
      assert FormatPart(t[0], b).Success?;
      assert Variables(t[1..]) <= Variables(t);
      FormatPartsRefuses(t[1..], b, i - 1);
    }
  }

  /** `prompt | llm | StrOutputParser()`: format the prompt, then ask the model. */
  function RunPrompt(t: seq<Part>, b: map<string, Value>, llm: Llm): (r: Result<string, PromptError>)
    ensures AllWellBound(t, b) ==> r == Success(llm(RenderAll(t, b)))
    ensures !(Variables(t) <= b.Keys) ==> r == Failure(MissingVariables(Variables(t) - b.Keys))
    ensures forall i: nat :: Variables(t) <= b.Keys && FirstMisbound(t, b, i) ==> r == Failure(NotAMessageList(t[i].name))
  {
    var prompt := Format(t, b);
    assert AllWellBound(t, b) ==> prompt == Success(RenderAll(t, b)) by {
      if AllWellBound(t, b) {
        FormatWellBound(t, b);
      }
    }
    assert forall i: nat :: Variables(t) <= b.Keys && FirstMisbound(t, b, i) ==> prompt == Failure(NotAMessageList(t[i].name)) by {
      forall i: nat | Variables(t) <= b.Keys && FirstMisbound(t, b, i)
        ensures prompt == Failure(NotAMessageList(t[i].name))
      {
        FormatPartsRefuses(t, b, i);
      }
    }
    if prompt.Failure? then Failure(prompt.error) else Success(llm(prompt.value))
  }
}
