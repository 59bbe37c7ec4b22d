/** What a TwiML document means, read off its element tree without any tokens, and that the token walk
    of TwimlParse computes it: `ParseFindsMeaning`, `TruncationIsAnError`. */
module TwimlMeaning {

  import opened Collections
  import opened TwimlVerbs
  import opened TwimlParse

  datatype Node = Element(name: Name, attrs: seq<Attr>, children: seq<Node>) | Text(text: string) | Comment

  /** The tokens of a tree, as the lexer delivers them; a self-closing tag also yields an end tag. */
  function Flatten(n: Node): seq<Token>
    decreases n
  {
    match n
    case Element(name, attrs, children) => [Start(name, attrs)] + FlattenAll(children) + [End(name)]
    case Text(text) => [Chars(text)]
    case Comment => [Other]
  }

  function FlattenAll(ns: seq<Node>): seq<Token>
    decreases ns
  {
    if ns == [] then [] else Flatten(ns[0]) + FlattenAll(ns[1..])
  }

  predicate Is(n: Node, el: TwimlParse.Element) {
    n.Element? && ElementOf(n.name) == el
  }

  // ---------------------------------------------------------------------------------------------
  // Meaning

  /** The text directly inside an element, concatenated. */
  function TextOf(ns: seq<Node>): string {
    if ns == [] then "" else (if ns[0].Text? then ns[0].text else "") + TextOf(ns[1..])
  }

  predicate HasChild(ns: seq<Node>, el: TwimlParse.Element) {
    exists i :: 0 <= i < |ns| && Is(ns[i], el)
  }

  /** Named parameters; of two with one name the later stands. */
  function ParametersOf(ns: seq<Node>): map<string, string> {
    if ns == [] then map[]
    else
      (if Is(ns[0], ParameterElement) && Str(ns[0].attrs, NameKey) != ""
       then map[Str(ns[0].attrs, NameKey) := Str(ns[0].attrs, ValueKey)] else map[]) + ParametersOf(ns[1..])
  }

  function LastStream(ns: seq<Node>): Option<Stream> {
    if ns == [] then None
    else if LastStream(ns[1..]).Some? then LastStream(ns[1..])
    else if Is(ns[0], StreamElement) then Some(StreamOf(ns[0].attrs, ParametersOf(ns[0].children)))
    else None
  }

  function LastNumber(ns: seq<Node>): Option<Number> {
    if ns == [] then None
    else if LastNumber(ns[1..]).Some? then LastNumber(ns[1..])
    else if Is(ns[0], NumberElement) then Some(Number(NumberAttrsOf(ns[0].attrs), TextOf(ns[0].children)))
    else None
  }

  predicate NumbersKnown(ns: seq<Node>) {
    forall i :: 0 <= i < |ns| && Is(ns[i], NumberElement) ==> EventsKnown(ns[i].attrs)
  }

  function RejectedIn(ns: seq<Node>): Rejected {
    Rejected(HasChild(ns, SipElement), HasChild(ns, ClientElement),
             HasChild(ns, ConferenceElement), HasChild(ns, QueueElement))
  }

  /** A child of Response as a verb. Only an unknown event name makes a complete element an error. */
  function VerbOf(name: Name, attrs: seq<Attr>, children: seq<Node>): Parsed<Verb> {
    match ElementOf(name)
    case ConnectElement => Ok(Connect(LastStream(children)))
    case DialElement =>
      if EventsKnown(attrs) && NumbersKnown(children)
      then Ok(DialVerb(Dial(DialAttrsOf(attrs), TextOf(children), LastNumber(children), RejectedIn(children))))
      else Err(ERROR_CODE_MALFORMED)
    case HangupElement => Ok(Hangup)
    case RedirectElement => Ok(Redirect(Str(attrs, MethodKey), TextOf(children)))
    case RejectElement => Ok(Reject(Str(attrs, ReasonKey)))
    case _ => Ok(Unknown(name))
  }

  /** The verbs of a Response, in document order. */
  function VerbsOf(ns: seq<Node>): Parsed<seq<Verb>> {
    if ns == [] then Ok([])
    else if !ns[0].Element? then VerbsOf(ns[1..])
    else
      var first, others := VerbOf(ns[0].name, ns[0].attrs, ns[0].children), VerbsOf(ns[1..]);
      if first.Ok? && others.Ok? then Ok([first.value] + others.value) else Err(ERROR_CODE_MALFORMED)
  }

  // ---------------------------------------------------------------------------------------------
  // Skipping consumes exactly one subtree

  lemma Regroup(a: seq<Token>, b: seq<Token>, c: seq<Token>)
    ensures (a + b) + c == a + (b + c)
  {
  }

  /** The tokens of a forest followed by `tail`, first node first. */
  lemma FlattenFirst(ns: seq<Node>, tail: seq<Token>)
    requires ns != []
    ensures FlattenAll(ns) + tail == Flatten(ns[0]) + (FlattenAll(ns[1..]) + tail)
    ensures ns[0].Element? ==>
              FlattenAll(ns) + tail == [Start(ns[0].name, ns[0].attrs)]
                + (FlattenAll(ns[0].children) + ([End(ns[0].name)] + (FlattenAll(ns[1..]) + tail)))
  {
    Regroup(Flatten(ns[0]), FlattenAll(ns[1..]), tail);
    if ns[0].Element? {
      ElementFirst(ns[0].name, ns[0].attrs, ns[0].children, FlattenAll(ns[1..]) + tail);
    }
  }

  lemma ElementFirst(name: Name, attrs: seq<Attr>, children: seq<Node>, left: seq<Token>)
    ensures Flatten(Element(name, attrs, children)) + left
         == [Start(name, attrs)] + (FlattenAll(children) + ([End(name)] + left))
  {
    Regroup([Start(name, attrs)] + FlattenAll(children), [End(name)], left);
    Regroup([Start(name, attrs)], FlattenAll(children), [End(name)] + left);
  }

  lemma {:induction false} SkipForest(ns: seq<Node>, tail: seq<Token>, depth: nat)
    ensures Skip(FlattenAll(ns) + tail, depth) == Skip(tail, depth)
    decreases ns
  {
    if ns == [] {
      assert FlattenAll(ns) + tail == tail;
    } else {
      var left := FlattenAll(ns[1..]) + tail;
      FlattenFirst(ns, tail);
      SkipForest(ns[1..], tail, depth);
      if ns[0].Element? {
        SkipForest(ns[0].children, [End(ns[0].name)] + left, depth + 1);
      }
    }
  }

  /** Skip consumes an element's content and end tag, whatever is nested in it, and nothing after. */
  lemma SkipConsumesOneSubtree(children: seq<Node>, name: Name, rest: seq<Token>)
    ensures Skip(FlattenAll(children) + ([End(name)] + rest), 0) == Some(rest)
  {
    SkipForest(children, [End(name)] + rest, 0);
  }

  lemma {:induction false} SkipToEndForest(ns: seq<Node>, tail: seq<Token>, local: string, depth: nat)
    ensures SkipToEnd(FlattenAll(ns) + tail, local, depth) == SkipToEnd(tail, local, depth)
    decreases ns
  {
    if ns == [] {
      assert FlattenAll(ns) + tail == tail;
    } else {
      var left := FlattenAll(ns[1..]) + tail;
      FlattenFirst(ns, tail);
      SkipToEndForest(ns[1..], tail, local, depth);
      if ns[0].Element? {
        SkipToEndForest(ns[0].children, [End(ns[0].name)] + left, local, depth + 1);
      }
    }
  }

  /** So does skipToEnd, even if elements of the same name are nested inside. */
  lemma SkipToEndConsumesOneSubtree(children: seq<Node>, name: Name, rest: seq<Token>)
    ensures SkipToEnd(FlattenAll(children) + ([End(name)] + rest), name.local, 0) == Some(rest)
  {
    SkipToEndForest(children, [End(name)] + rest, name.local, 0);
  }

  // ---------------------------------------------------------------------------------------------
  // Each element's walk finds its meaning

  lemma TextCons(text: string, ns: seq<Node>)
    requires ns != []
    ensures text + TextOf(ns) == (if ns[0].Text? then text + ns[0].text else text) + TextOf(ns[1..])
  {
    if ns[0].Text? {
      assert text + (ns[0].text + TextOf(ns[1..])) == text + ns[0].text + TextOf(ns[1..]);
    } else {
      assert TextOf(ns) == TextOf(ns[1..]);
    }
  }

  lemma {:induction false} TextFindsMeaning(ns: seq<Node>, name: Name, rest: seq<Token>, text: string)
    ensures TextBody(FlattenAll(ns) + ([End(name)] + rest), ElementOf(name), text) == Done(text + TextOf(ns), rest)
  {
    var tail := [End(name)] + rest;
    if ns == [] {
      assert FlattenAll(ns) + tail == tail && text + TextOf(ns) == text;
    } else {
      FlattenFirst(ns, tail);
      if ns[0].Element? {
        SkipConsumesOneSubtree(ns[0].children, ns[0].name, FlattenAll(ns[1..]) + tail);
      }
      TextFindsMeaning(ns[1..], name, rest, if ns[0].Text? then text + ns[0].text else text);
      TextCons(text, ns);
    }
  }

  lemma MergeOne(p: map<string, string>, k: string, v: string, q: map<string, string>)
    ensures p[k := v] + q == p + (map[k := v] + q)
  {
  }

  /** The parameters after the first child, completed by those of the others. */
  lemma ParametersCons(s: Stream, ns: seq<Node>)
    requires ns != []
    ensures var next := if Is(ns[0], ParameterElement) then AddParameter(s, ns[0].attrs) else s;
            next.parameters + ParametersOf(ns[1..]) == s.parameters + ParametersOf(ns)
  {
    var others := ParametersOf(ns[1..]);
    if Is(ns[0], ParameterElement) {
      MergeOne(s.parameters, Str(ns[0].attrs, NameKey), Str(ns[0].attrs, ValueKey), others);
    }
    assert map[] + others == others;
  }

  lemma {:induction false} StreamFindsMeaning(ns: seq<Node>, name: Name, rest: seq<Token>, s: Stream)
    requires ElementOf(name).StreamElement?
    ensures StreamBody(FlattenAll(ns) + ([End(name)] + rest), s)
         == Done(s.(parameters := s.parameters + ParametersOf(ns)), rest)
  {
    var tail := [End(name)] + rest;
    if ns == [] {
      assert FlattenAll(ns) + tail == tail && s.parameters + ParametersOf(ns) == s.parameters;
    } else {
      FlattenFirst(ns, tail);
      var next := if Is(ns[0], ParameterElement) then AddParameter(s, ns[0].attrs) else s;
      if ns[0].Element? {
        SkipConsumesOneSubtree(ns[0].children, ns[0].name, FlattenAll(ns[1..]) + tail);
      }
      StreamFindsMeaning(ns[1..], name, rest, next);
      ParametersCons(s, ns);
    }
  }

  lemma {:induction false} ConnectFindsMeaning(ns: seq<Node>, name: Name, rest: seq<Token>, c: Option<Stream>)
    requires ElementOf(name).ConnectElement?
    ensures ConnectBody(FlattenAll(ns) + ([End(name)] + rest), c)
         == Done(if LastStream(ns).Some? then LastStream(ns) else c, rest)
  {
    var tail := [End(name)] + rest;
    if ns == [] {
      assert FlattenAll(ns) + tail == tail;
    } else {
      FlattenFirst(ns, tail);
      var left := FlattenAll(ns[1..]) + tail;
      if Is(ns[0], StreamElement) {
        var s := StreamOf(ns[0].attrs, map[]);
        StreamFindsMeaning(ns[0].children, ns[0].name, left, s);
        assert map[] + ParametersOf(ns[0].children) == ParametersOf(ns[0].children);
        ConnectFindsMeaning(ns[1..], name, rest, Some(StreamOf(ns[0].attrs, ParametersOf(ns[0].children))));
      } else {
        if ns[0].Element? {
          SkipConsumesOneSubtree(ns[0].children, ns[0].name, left);
        }
        ConnectFindsMeaning(ns[1..], name, rest, c);
      }
    }
  }

  /** A dial as far as it has been read, completed by the children still to come. */
  function Complete(d: Dial, ns: seq<Node>): Dial {
    Dial(d.attrs, d.numberText + TextOf(ns), if LastNumber(ns).Some? then LastNumber(ns) else d.number,
         AddRejected(d.has, ns))
  }

  function AddRejected(has: Rejected, ns: seq<Node>): Rejected {
    Rejected(has.sip || HasChild(ns, SipElement), has.client || HasChild(ns, ClientElement),
             has.conference || HasChild(ns, ConferenceElement), has.queue || HasChild(ns, QueueElement))
  }

  lemma FlagSets(has: Rejected, el: TwimlParse.Element)
    ensures Flag(has, el) == Rejected(has.sip || el == SipElement, has.client || el == ClientElement,
                                      has.conference || el == ConferenceElement, has.queue || el == QueueElement)
  {
  }

  lemma AddRejectedCons(has: Rejected, ns: seq<Node>)
    requires ns != []
    ensures AddRejected(has, ns)
         == AddRejected(if ns[0].Element? then Flag(has, ElementOf(ns[0].name)) else has, ns[1..])
  {
    HasChildCons(ns, SipElement);
    HasChildCons(ns, ClientElement);
    HasChildCons(ns, ConferenceElement);
    HasChildCons(ns, QueueElement);
    if ns[0].Element? {
      FlagSets(has, ElementOf(ns[0].name));
    }
  }

  lemma HasChildCons(ns: seq<Node>, el: TwimlParse.Element)
    requires ns != []
    ensures HasChild(ns, el) <==> Is(ns[0], el) || HasChild(ns[1..], el)
  {
    if HasChild(ns[1..], el) {
      var i :| 0 <= i < |ns[1..]| && Is(ns[1..][i], el);
      assert Is(ns[i + 1], el);
    }
    if HasChild(ns, el) && !Is(ns[0], el) {
      var i :| 0 <= i < |ns| && Is(ns[i], el);
      assert Is(ns[1..][i - 1], el);
    }
  }

  lemma NumbersKnownCons(ns: seq<Node>)
    requires ns != []
    ensures NumbersKnown(ns) <==> (Is(ns[0], NumberElement) ==> EventsKnown(ns[0].attrs)) && NumbersKnown(ns[1..])
  {
    forall i | 0 <= i < |ns[1..]|
      ensures ns[1..][i] == ns[i + 1]
    {
    }
    if NumbersKnown(ns[1..]) {
      forall i | 0 < i < |ns| && Is(ns[i], NumberElement)
        ensures EventsKnown(ns[i].attrs)
      {
        assert Is(ns[1..][i - 1], NumberElement);
      }
    }
  }

  /** What the walk holds after the first child. */
  function AfterChild(d: Dial, n: Node): Dial {
    match n
    case Text(t) => d.(numberText := d.numberText + t)
    case Comment => d
    case Element(name, attrs, children) =>
      if ElementOf(name).NumberElement? then d.(number := Some(Number(NumberAttrsOf(attrs), TextOf(children))))
      else d.(has := Flag(d.has, ElementOf(name)))
  }

  lemma CompleteCons(d: Dial, ns: seq<Node>)
    requires ns != []
    ensures Complete(d, ns) == Complete(AfterChild(d, ns[0]), ns[1..])
  {
    AddRejectedCons(d.has, ns);
    TextCons(d.numberText, ns);
  }

  /** One child of Dial: the walk fails on a Number with unknown events, else goes on behind it. */
  lemma DialChild(d: Dial, n: Node, left: seq<Token>)
    ensures DialBody(Flatten(n) + left, d)
         == if Is(n, NumberElement) && !EventsKnown(n.attrs) then Failed else DialBody(left, AfterChild(d, n))
  {
    if n.Element? {
      ElementFirst(n.name, n.attrs, n.children, left);
      if ElementOf(n.name).NumberElement? {
        TextFindsMeaning(n.children, n.name, left, "");
        assert "" + TextOf(n.children) == TextOf(n.children);
      } else {
        SkipConsumesOneSubtree(n.children, n.name, left);
      }
    }
  }

  lemma {:induction false} DialFindsMeaning(ns: seq<Node>, name: Name, rest: seq<Token>, d: Dial)
    requires ElementOf(name).DialElement?
    ensures DialBody(FlattenAll(ns) + ([End(name)] + rest), d)
         == if NumbersKnown(ns) then Done(Complete(d, ns), rest) else Failed
  {
    var tail := [End(name)] + rest;
    if ns == [] {
      assert FlattenAll(ns) + tail == tail;
      assert d.numberText + TextOf(ns) == d.numberText;
    } else {
      FlattenFirst(ns, tail);
      DialChild(d, ns[0], FlattenAll(ns[1..]) + tail);
      DialFindsMeaning(ns[1..], name, rest, AfterChild(d, ns[0]));
      NumbersKnownCons(ns);
      CompleteCons(d, ns);
    }
  }

  /** A meaning as the outcome of a walk that leaves `rest`. */
  function Found<T>(meaning: Parsed<T>, rest: seq<Token>): Walk<T> {
    if meaning.Ok? then Done(meaning.value, rest) else Failed
  }

  lemma {:induction false} VerbFindsMeaning(name: Name, attrs: seq<Attr>, children: seq<Node>, rest: seq<Token>)
    ensures VerbWalk(FlattenAll(children) + ([End(name)] + rest), name, attrs)
         == Found(VerbOf(name, attrs, children), rest)
  {
    match ElementOf(name)
    case ConnectElement => ConnectFindsMeaning(children, name, rest, None);
    case DialElement =>
      DialFindsMeaning(children, name, rest, NewDial(attrs));
      assert "" + TextOf(children) == TextOf(children);
    case HangupElement => SkipToEndConsumesOneSubtree(children, name, rest);
    case RedirectElement =>
      TextFindsMeaning(children, name, rest, "");
      assert "" + TextOf(children) == TextOf(children);
    case RejectElement => SkipToEndConsumesOneSubtree(children, name, rest);
    case _ => SkipConsumesOneSubtree(children, name, rest);
  }

  lemma RegroupVerbs(verbs: seq<Verb>, v: Verb, others: seq<Verb>)
    ensures verbs + [v] + others == verbs + ([v] + others)
  {
  }

  lemma {:induction false} ResponseFindsMeaning(ns: seq<Node>, name: Name, rest: seq<Token>, verbs: seq<Verb>)
    requires ElementOf(name).ResponseElement?
    ensures ResponseBody(FlattenAll(ns) + ([End(name)] + rest), verbs)
         == if VerbsOf(ns).Ok? then Done(verbs + VerbsOf(ns).value, rest) else Failed
  {
    var tail := [End(name)] + rest;
    if ns == [] {
      assert FlattenAll(ns) + tail == tail && verbs + [] == verbs;
    } else {
      FlattenFirst(ns, tail);
      if ns[0].Element? {
        VerbFindsMeaning(ns[0].name, ns[0].attrs, ns[0].children, FlattenAll(ns[1..]) + tail);
        var v := VerbOf(ns[0].name, ns[0].attrs, ns[0].children);
        if v.Ok? {
          ResponseFindsMeaning(ns[1..], name, rest, verbs + [v.value]);
          if VerbsOf(ns[1..]).Ok? {
            RegroupVerbs(verbs, v.value, VerbsOf(ns[1..]).value);
          }
        }
      } else {
        ResponseFindsMeaning(ns[1..], name, rest, verbs);
      }
    }
  }

  // ---------------------------------------------------------------------------------------------
  // Main results

  /** A document: text and comments, then the root element. */
  datatype Document = Document(prolog: seq<Node>, name: Name, attrs: seq<Attr>, children: seq<Node>)

  predicate PlainProlog(prolog: seq<Node>) {
    forall i :: 0 <= i < |prolog| ==> !prolog[i].Element?
  }

  function Tokens(d: Document): seq<Token> {
    FlattenAll(d.prolog) + Flatten(Element(d.name, d.attrs, d.children))
  }

  /** The verbs of a document with root Response; any other root is an error. */
  function Meaning(d: Document): Parsed<seq<Verb>> {
    if ElementOf(d.name).ResponseElement? then VerbsOf(d.children) else Err(ERROR_CODE_MALFORMED)
  }

  lemma {:induction false} PrologIsSkipped(prolog: seq<Node>, tail: seq<Token>)
    requires PlainProlog(prolog)
    ensures ParseTokens(FlattenAll(prolog) + tail) == ParseTokens(tail)
  {
    if prolog == [] {
      assert FlattenAll(prolog) + tail == tail;
    } else {
      FlattenFirst(prolog, tail);
      PrologIsSkipped(prolog[1..], tail);
    }
  }

  /** The walk over any document finds exactly its meaning, stops right behind the root's end tag
      whatever follows, and fails exactly if the document has no meaning. */
  lemma ParseFindsMeaning(d: Document, rest: seq<Token>)
    requires PlainProlog(d.prolog)
    ensures ParseTokens(Tokens(d) + rest) == Found(Meaning(d), rest)
  {
    var root := [Start(d.name, d.attrs)] + (FlattenAll(d.children) + ([End(d.name)] + rest));
    assert Tokens(d) + rest == FlattenAll(d.prolog) + root;
    PrologIsSkipped(d.prolog, root);
    if ElementOf(d.name).ResponseElement? {
      ResponseFindsMeaning(d.children, d.name, rest, []);
      if VerbsOf(d.children).Ok? {
        assert [] + VerbsOf(d.children).value == VerbsOf(d.children).value;
      }
    }
  }

  // Reading is local: tokens behind the ones a walk consumed do not influence it.

  lemma {:induction false} SkipIsLocal(ts: seq<Token>, more: seq<Token>, depth: nat)
    requires Skip(ts, depth).Some?
    ensures Skip(ts + more, depth) == Some(Skip(ts, depth).value + more)
  {
    assert (ts + more)[1..] == ts[1..] + more;
    match ts[0]
    case Start(_, _) => SkipIsLocal(ts[1..], more, depth + 1);
    case End(_) => if depth > 0 { SkipIsLocal(ts[1..], more, depth - 1); }
    case _ => SkipIsLocal(ts[1..], more, depth);
  }

  lemma {:induction false} SkipToEndIsLocal(ts: seq<Token>, more: seq<Token>, local: string, depth: int)
    requires SkipToEnd(ts, local, depth).Some?
    ensures SkipToEnd(ts + more, local, depth) == Some(SkipToEnd(ts, local, depth).value + more)
  {
    assert (ts + more)[1..] == ts[1..] + more;
    match ts[0]
    case Start(_, _) => SkipToEndIsLocal(ts[1..], more, local, depth + 1);
    case End(name) =>
      if !(depth == 0 && name.local == local) { SkipToEndIsLocal(ts[1..], more, local, depth - 1); }
    case _ => SkipToEndIsLocal(ts[1..], more, local, depth);
  }

  function Longer<T>(w: Walk<T>, more: seq<Token>): Walk<T> {
    if w.Done? then Done(w.value, w.rest + more) else Failed
  }

  lemma {:induction false} TextIsLocal(ts: seq<Token>, more: seq<Token>, el: TwimlParse.Element, text: string)
    requires TextBody(ts, el, text).Done?
    ensures TextBody(ts + more, el, text) == Longer(TextBody(ts, el, text), more)
    decreases |ts|
  {
    assert (ts + more)[1..] == ts[1..] + more;
    match ts[0]
    case Chars(t) => TextIsLocal(ts[1..], more, el, text + t);
    case Start(_, _) =>
      SkipIsLocal(ts[1..], more, 0);
      TextIsLocal(Skip(ts[1..], 0).value, more, el, text);
    case End(name) => if ElementOf(name) != el { TextIsLocal(ts[1..], more, el, text); }
    case Other => TextIsLocal(ts[1..], more, el, text);
  }

  lemma {:induction false} StreamIsLocal(ts: seq<Token>, more: seq<Token>, s: Stream)
    requires StreamBody(ts, s).Done?
    ensures StreamBody(ts + more, s) == Longer(StreamBody(ts, s), more)
    decreases |ts|
  {
    assert (ts + more)[1..] == ts[1..] + more;
    match ts[0]
    case Start(name, attrs) =>
      SkipIsLocal(ts[1..], more, 0);
      StreamIsLocal(Skip(ts[1..], 0).value, more,
                    if ElementOf(name).ParameterElement? then AddParameter(s, attrs) else s);
    case End(name) => if !ElementOf(name).StreamElement? { StreamIsLocal(ts[1..], more, s); }
    case _ => StreamIsLocal(ts[1..], more, s);
  }

  lemma {:induction false} ConnectIsLocal(ts: seq<Token>, more: seq<Token>, c: Option<Stream>)
    requires ConnectBody(ts, c).Done?
    ensures ConnectBody(ts + more, c) == Longer(ConnectBody(ts, c), more)
    decreases |ts|
  {
    assert (ts + more)[1..] == ts[1..] + more;
    match ts[0]
    case Start(name, attrs) =>
      if ElementOf(name).StreamElement? {
        var w := StreamBody(ts[1..], StreamOf(attrs, map[]));
        StreamIsLocal(ts[1..], more, StreamOf(attrs, map[]));
        ConnectIsLocal(w.rest, more, Some(w.value));
      } else {
        SkipIsLocal(ts[1..], more, 0);
        ConnectIsLocal(Skip(ts[1..], 0).value, more, c);
      }
    case End(name) => if !ElementOf(name).ConnectElement? { ConnectIsLocal(ts[1..], more, c); }
    case _ => ConnectIsLocal(ts[1..], more, c);
  }

  lemma NumberIsLocal(ts: seq<Token>, more: seq<Token>, attrs: seq<Attr>)
    requires NumberWalk(ts, attrs).Done?
    ensures NumberWalk(ts + more, attrs) == Longer(NumberWalk(ts, attrs), more)
  {
    TextIsLocal(ts, more, NumberElement, "");
  }

  lemma {:induction false} DialIsLocal(ts: seq<Token>, more: seq<Token>, d: Dial)
    requires DialBody(ts, d).Done?
    ensures DialBody(ts + more, d) == Longer(DialBody(ts, d), more)
    decreases |ts|
  {
    assert (ts + more)[1..] == ts[1..] + more;
    match ts[0]
    case Chars(t) => DialIsLocal(ts[1..], more, d.(numberText := d.numberText + t));
    case Start(name, attrs) =>
      if ElementOf(name).NumberElement? {
        var w := NumberWalk(ts[1..], attrs);
        NumberIsLocal(ts[1..], more, attrs);
        DialIsLocal(w.rest, more, d.(number := Some(w.value)));
      } else {
        SkipIsLocal(ts[1..], more, 0);
        DialIsLocal(Skip(ts[1..], 0).value, more, d.(has := Flag(d.has, ElementOf(name))));
      }
    case End(name) => if !ElementOf(name).DialElement? { DialIsLocal(ts[1..], more, d); }
    case Other => DialIsLocal(ts[1..], more, d);
  }

  lemma VerbIsLocal(ts: seq<Token>, more: seq<Token>, name: Name, attrs: seq<Attr>)
    requires VerbWalk(ts, name, attrs).Done?
    ensures VerbWalk(ts + more, name, attrs) == Longer(VerbWalk(ts, name, attrs), more)
  {
    match ElementOf(name)
    case ConnectElement => ConnectIsLocal(ts, more, None);
    case DialElement => DialIsLocal(ts, more, NewDial(attrs));
    case HangupElement => SkipToEndIsLocal(ts, more, name.local, 0);
    case RedirectElement => TextIsLocal(ts, more, RedirectElement, "");
    case RejectElement => SkipToEndIsLocal(ts, more, name.local, 0);
    case _ => SkipIsLocal(ts, more, 0);
  }

  lemma {:induction false} ResponseIsLocal(ts: seq<Token>, more: seq<Token>, verbs: seq<Verb>)
    requires ResponseBody(ts, verbs).Done?
    ensures ResponseBody(ts + more, verbs) == Longer(ResponseBody(ts, verbs), more)
    decreases |ts|
  {
    assert (ts + more)[1..] == ts[1..] + more;
    match ts[0]
    case Start(name, attrs) =>
      var w := VerbWalk(ts[1..], name, attrs);
      VerbIsLocal(ts[1..], more, name, attrs);
      ResponseIsLocal(w.rest, more, verbs + [w.value]);
    case End(_) =>
    case _ => ResponseIsLocal(ts[1..], more, verbs);
  }

  lemma {:induction false} ParseIsLocal(ts: seq<Token>, more: seq<Token>)
    requires ParseTokens(ts).Done?
    ensures ParseTokens(ts + more) == Longer(ParseTokens(ts), more)
  {
    assert (ts + more)[1..] == ts[1..] + more;
    if ts[0].Start? {
      ResponseIsLocal(ts[1..], more, []);
    } else {
      ParseIsLocal(ts[1..], more);
    }
  }

  /** A document cut off anywhere before its last token is an error: the walk never takes a part of a
      document for a shorter one. */
  lemma TruncationIsAnError(d: Document, k: nat)
    requires PlainProlog(d.prolog) && k < |Tokens(d)|
    ensures ParseTokens(Tokens(d)[..k]).Failed?
  {
    var front, more := Tokens(d)[..k], Tokens(d)[k..];
    assert front + more == Tokens(d) && Tokens(d) + [] == Tokens(d);
    ParseFindsMeaning(d, []);
    if ParseTokens(front).Done? {
      ParseIsLocal(front, more);
    }
  }

  /** Every child element of a well-formed Response yields one verb, in order; names without a verb of
      their own are kept as Unknown. */
  function VerbName(v: Verb): string {
    match v
    case Connect(_) => "Connect"
    case DialVerb(_) => "Dial"
    case Hangup => "Hangup"
    case Redirect(_, _) => "Redirect"
    case Reject(_) => "Reject"
    case Unknown(name) => name.local
  }

  function ElementNames(ns: seq<Node>): seq<string> {
    if ns == [] then [] else (if ns[0].Element? then [ns[0].name.local] else []) + ElementNames(ns[1..])
  }

  function VerbNames(vs: seq<Verb>): seq<string> {
    if vs == [] then [] else [VerbName(vs[0])] + VerbNames(vs[1..])
  }

  /** The names of the five verbs. */
  lemma VerbElementName(name: Name)
    ensures match ElementOf(name)
            case ConnectElement => name.local == "Connect"
            case DialElement => name.local == "Dial"
            case HangupElement => name.local == "Hangup"
            case RedirectElement => name.local == "Redirect"
            case RejectElement => name.local == "Reject"
            case _ => true
  {
  }

  lemma VerbKeepsName(name: Name, attrs: seq<Attr>, children: seq<Node>)
    requires VerbOf(name, attrs, children).Ok?
    ensures VerbName(VerbOf(name, attrs, children).value) == name.local
  {
    VerbElementName(name);
  }

  lemma {:induction false} NoElementIsLost(ns: seq<Node>)
    requires VerbsOf(ns).Ok?
    ensures VerbNames(VerbsOf(ns).value) == ElementNames(ns)
  {
    if ns != [] {
      NoElementIsLost(ns[1..]);
      if ns[0].Element? {
        VerbKeepsName(ns[0].name, ns[0].attrs, ns[0].children);
        var v, vs := VerbOf(ns[0].name, ns[0].attrs, ns[0].children).value, VerbsOf(ns[1..]).value;
        assert ([v] + vs)[1..] == vs;
      }
    }
  }

  // The documented forms, with their names spelled out.

  function Named(name: string, value: string): Attr {
    Attr(Name("", name), value)
  }

  lemma StrOfTwo(a: Attr, b: Attr, key: Key)
    ensures Str([a, b], key) == if KeyOf(b) == key then b.value else if KeyOf(a) == key then a.value else ""
  {
    LastAttrSnoc([], a, key, Verbatim);
    LastAttrSnoc([a], b, key, Verbatim);
    assert [] + [a] == [a] && [a] + [b] == [a, b];
  }

  lemma OneParameter(n: Node)
    requires Is(n, ParameterElement) && Str(n.attrs, NameKey) != ""
    ensures ParametersOf([n]) == map[Str(n.attrs, NameKey) := Str(n.attrs, ValueKey)]
  {
    assert [n][1..] == [];
  }

  lemma ParameterExample(k: string, v: string)
    requires k != ""
    ensures ParametersOf([Element(Name("", "Parameter"), [Named("name", k), Named("value", v)], [])]) == map[k := v]
  {
    StrOfTwo(Named("name", k), Named("value", v), NameKey);
    StrOfTwo(Named("name", k), Named("value", v), ValueKey);
    OneParameter(Element(Name("", "Parameter"), [Named("name", k), Named("value", v)], []));
  }

  lemma OneStream(n: Node)
    requires Is(n, StreamElement)
    ensures LastStream([n]) == Some(StreamOf(n.attrs, ParametersOf(n.children)))
  {
    assert [n][1..] == [];
  }

  lemma UrlAndTrack(url: string, track: string)
    ensures var attrs := [Named("url", url), Named("track", track)];
            Str(attrs, UrlKey) == url && Str(attrs, NameKey) == "" && Str(attrs, TrackKey) == track
  {
    StrOfTwo(Named("url", url), Named("track", track), UrlKey);
    StrOfTwo(Named("url", url), Named("track", track), NameKey);
    StrOfTwo(Named("url", url), Named("track", track), TrackKey);
  }

  lemma StreamExample(url: string, track: string, children: seq<Node>)
    ensures VerbOf(Name("", "Connect"), [], [Element(Name("", "Stream"), [Named("url", url), Named("track", track)], children)])
         == Ok(Connect(Some(Stream(url, "", track, ParametersOf(children)))))
  {
    UrlAndTrack(url, track);
    OneStream(Element(Name("", "Stream"), [Named("url", url), Named("track", track)], children));
  }

  /** The walk takes a document for one exactly if its root is called Response. */
  lemma RootName(name: Name)
    ensures ParseTokens([Start(name, []), End(name)]) == if name.local == "Response" then Done([], []) else Failed
  {
    var d := Document([], name, [], []);
    ParseFindsMeaning(d, []);
    assert Tokens(d) + [] == [Start(name, []), End(name)];
  }

  /** Each child of Response is the verb of its name, or an unknown one that keeps it. */
  lemma ChildNames(name: Name)
    ensures VerbOf(name, [], [])
         == Ok(match name.local
               case "Connect" => Connect(None)
               case "Dial" => DialVerb(Dial(NO_DIAL_ATTRS, "", None, Rejected(false, false, false, false)))
               case "Hangup" => Hangup
               case "Redirect" => Redirect("", "")
               case "Reject" => Reject("")
               case _ => Unknown(name))
  {
    NoDialAttrs();
    assert EventsKnown([]) && NumbersKnown([]);
  }

  /** Number gives a Dial its number; Sip, Client, Conference and Queue each set their own flag; any other
      child of Dial leaves no trace. */
  lemma DialChildNames(name: Name)
    ensures VerbOf(Name("", "Dial"), [], [Element(name, [], [])])
         == Ok(DialVerb(Dial(NO_DIAL_ATTRS, "", if name.local == "Number" then Some(Number(NumberAttrs("", "", []), "")) else None,
                             Rejected(name.local == "Sip", name.local == "Client",
                                      name.local == "Conference", name.local == "Queue"))))
  {
    var child := Element(name, [], []);
    NoDialAttrs();
    OneRejected(child);
    OneNumber(child);
    assert TextOf([child]) == "" && EventsKnown([]) && NumbersKnown([child]);
  }

  lemma OneRejected(child: Node)
    requires child.Element?
    ensures RejectedIn([child]) == Rejected(child.name.local == "Sip", child.name.local == "Client",
                                            child.name.local == "Conference", child.name.local == "Queue")
  {
    forall el: TwimlParse.Element
      ensures HasChild([child], el) <==> ElementOf(child.name) == el
    {
      assert Is([child][0], el) <==> ElementOf(child.name) == el;
    }
  }

  lemma OneNumber(child: Node)
    requires child.Element? && child.attrs == [] && child.children == []
    ensures LastNumber([child]) == if child.name.local == "Number" then Some(Number(NumberAttrs("", "", []), "")) else None
  {
    assert [child][1..] == [] && LastNumber([]) == None;
    assert NumberAttrsOf([]) == NumberAttrs("", "", []);
  }

  /** Streams and parameters are what is called so. */
  lemma StreamChildNames(name: Name, k: string, v: string)
    requires k != ""
    ensures LastStream([Element(name, [], [])]).Some? <==> name.local == "Stream"
    ensures ParametersOf([Element(name, [Named("name", k), Named("value", v)], [])])
         == if name.local == "Parameter" then map[k := v] else map[]
  {
    var child := Element(name, [Named("name", k), Named("value", v)], []);
    StrOfTwo(Named("name", k), Named("value", v), NameKey);
    StrOfTwo(Named("name", k), Named("value", v), ValueKey);
    assert [child][1..] == [] && [Element(name, [], [])][1..] == [];
    if name.local == "Parameter" {
      OneParameter(child);
    }
  }
}
