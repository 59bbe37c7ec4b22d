/** The TwiML token walk (go/internal/twiml/parse.go:113-198, 203-284, 290-479). The XML lexer is not
    modelled: a document is the sequence of tokens it delivers, after which every further read is an
    error. `ParseTokens` and the functions it calls follow the walk on any token sequence, broken or
    truncated ones included; the Decoder methods are the loops of the program. */
module TwimlParse {

  import opened Collections
  import opened TwimlVerbs

  /** Chars is character data; Other stands for comments, directives and processing instructions. */
  datatype Token = Start(name: Name, attrs: seq<Attr>) | End(name: Name) | Chars(text: string) | Other

  /** The element names the parser knows, by local part. */
  datatype Element =
    | ResponseElement | ConnectElement | StreamElement | ParameterElement
    | DialElement | NumberElement | SipElement | ClientElement | ConferenceElement | QueueElement
    | HangupElement | RedirectElement | RejectElement | OtherElement

  function ElementOf(n: Name): Element {
    match n.local
    case "Response" => ResponseElement
    case "Connect" => ConnectElement
    case "Stream" => StreamElement
    case "Parameter" => ParameterElement
    case "Dial" => DialElement
    case "Number" => NumberElement
    case "Sip" => SipElement
    case "Client" => ClientElement
    case "Conference" => ConferenceElement
    case "Queue" => QueueElement
    case "Hangup" => HangupElement
    case "Redirect" => RedirectElement
    case "Reject" => RejectElement
    case _ => OtherElement
  }

  // ---------------------------------------------------------------------------------------------
  // The walk on token sequences

  /** The value read and the tokens left, or an error; every error carries code 12100. */
  datatype Walk<T> = Done(value: T, rest: seq<Token>) | Failed

  /** Decoder.Skip: to the end of the element whose start has just been read. */
  function Skip(ts: seq<Token>, depth: nat): (r: Option<seq<Token>>)
    ensures r.Some? ==> |r.value| < |ts|
  {
    if ts == [] then None
    else match ts[0]
      case Start(_, _) => Skip(ts[1..], depth + 1)
      case End(_) => if depth == 0 then Some(ts[1..]) else Skip(ts[1..], depth - 1)
      case _ => Skip(ts[1..], depth)
  }

  /** skipToEnd; unlike Skip it compares the name and lets the depth go below zero. */
  function SkipToEnd(ts: seq<Token>, local: string, depth: int): (r: Option<seq<Token>>)
    ensures r.Some? ==> |r.value| < |ts|
  {
    if ts == [] then None
    else match ts[0]
      case Start(_, _) => SkipToEnd(ts[1..], local, depth + 1)
      case End(name) =>
        if depth == 0 && name.local == local then Some(ts[1..]) else SkipToEnd(ts[1..], local, depth - 1)
      case _ => SkipToEnd(ts[1..], local, depth)
  }

  function AddParameter(s: Stream, attrs: seq<Attr>): Stream {
    if Str(attrs, NameKey) == "" then s
    else s.(parameters := s.parameters[Str(attrs, NameKey) := Str(attrs, ValueKey)])
  }

  function StreamBody(ts: seq<Token>, s: Stream): (r: Walk<Stream>)
    ensures r.Done? ==> |r.rest| < |ts|
    decreases |ts|
  {
    if ts == [] then Failed
    else match ts[0]
      case Start(name, attrs) =>
        var after := Skip(ts[1..], 0);
        if after.None? then Failed
        else StreamBody(after.value, if ElementOf(name).ParameterElement? then AddParameter(s, attrs) else s)
      case End(name) => if ElementOf(name).StreamElement? then Done(s, ts[1..]) else StreamBody(ts[1..], s)
      case _ => StreamBody(ts[1..], s)
  }

  function ConnectBody(ts: seq<Token>, c: Option<Stream>): (r: Walk<Option<Stream>>)
    ensures r.Done? ==> |r.rest| < |ts|
    decreases |ts|
  {
    if ts == [] then Failed
    else match ts[0]
      case Start(name, attrs) =>
        if ElementOf(name).StreamElement? then
          var w := StreamBody(ts[1..], StreamOf(attrs, map[]));
          if w.Failed? then Failed else ConnectBody(w.rest, Some(w.value))
        else
          var after := Skip(ts[1..], 0);
          if after.None? then Failed else ConnectBody(after.value, c)
      case End(name) => if ElementOf(name).ConnectElement? then Done(c, ts[1..]) else ConnectBody(ts[1..], c)
      case _ => ConnectBody(ts[1..], c)
  }

  /** The character data directly inside the element; shared by Number and Redirect. */
  function TextBody(ts: seq<Token>, el: Element, text: string): (r: Walk<string>)
    ensures r.Done? ==> |r.rest| < |ts|
    decreases |ts|
  {
    if ts == [] then Failed
    else match ts[0]
      case Chars(t) => TextBody(ts[1..], el, text + t)
      case Start(_, _) =>
        var after := Skip(ts[1..], 0);
        if after.None? then Failed else TextBody(after.value, el, text)
      case End(name) => if ElementOf(name) == el then Done(text, ts[1..]) else TextBody(ts[1..], el, text)
      case Other => TextBody(ts[1..], el, text)
  }

  function NumberWalk(ts: seq<Token>, attrs: seq<Attr>): (r: Walk<Number>)
    ensures r.Done? ==> |r.rest| < |ts|
  {
    if !EventsKnown(attrs) then Failed
    else match TextBody(ts, NumberElement, "")
      case Failed => Failed
      case Done(text, rest) => Done(Number(NumberAttrsOf(attrs), text), rest)
  }

  /** The rejected-child flag a start tag inside Dial sets. */
  function Flag(has: Rejected, el: Element): Rejected {
    match el
    case SipElement => has.(sip := true)
    case ClientElement => has.(client := true)
    case ConferenceElement => has.(conference := true)
    case QueueElement => has.(queue := true)
    case _ => has
  }

  function DialBody(ts: seq<Token>, d: Dial): (r: Walk<Dial>)
    ensures r.Done? ==> |r.rest| < |ts|
    decreases |ts|
  {
    if ts == [] then Failed
    else match ts[0]
      case Chars(t) => DialBody(ts[1..], d.(numberText := d.numberText + t))
      case Start(name, attrs) =>
        if ElementOf(name).NumberElement? then
          var w := NumberWalk(ts[1..], attrs);
          if w.Failed? then Failed else DialBody(w.rest, d.(number := Some(w.value)))
        else
          var after := Skip(ts[1..], 0);
          if after.None? then Failed else DialBody(after.value, d.(has := Flag(d.has, ElementOf(name))))
      case End(name) => if ElementOf(name).DialElement? then Done(d, ts[1..]) else DialBody(ts[1..], d)
      case Other => DialBody(ts[1..], d)
  }

  function NewDial(attrs: seq<Attr>): Dial {
    Dial(DialAttrsOf(attrs), "", None, Rejected(false, false, false, false))
  }

  /** One child element of Response, its start tag just read. */
  function VerbWalk(ts: seq<Token>, name: Name, attrs: seq<Attr>): (r: Walk<Verb>)
    ensures r.Done? ==> |r.rest| < |ts|
  {
    match ElementOf(name)
    case ConnectElement =>
      (match ConnectBody(ts, None) case Failed => Failed case Done(c, rest) => Done(Connect(c), rest))
    case DialElement =>
      if !EventsKnown(attrs) then Failed
      else (match DialBody(ts, NewDial(attrs)) case Failed => Failed case Done(d, rest) => Done(DialVerb(d), rest))
    case HangupElement =>
      (match SkipToEnd(ts, name.local, 0) case None => Failed case Some(rest) => Done(Hangup, rest))
    case RedirectElement =>
      (match TextBody(ts, RedirectElement, "")
       case Failed => Failed
       case Done(url, rest) => Done(Redirect(Str(attrs, MethodKey), url), rest))
    case RejectElement =>
      (match SkipToEnd(ts, name.local, 0) case None => Failed case Some(rest) => Done(Reject(Str(attrs, ReasonKey)), rest))
    case _ =>
      (match Skip(ts, 0) case None => Failed case Some(rest) => Done(Unknown(name), rest))
  }

  function ResponseBody(ts: seq<Token>, verbs: seq<Verb>): Walk<seq<Verb>>
    decreases |ts|
  {
    if ts == [] then Failed
    else match ts[0]
      case Start(name, attrs) =>
        var w := VerbWalk(ts[1..], name, attrs);
        if w.Failed? then Failed else ResponseBody(w.rest, verbs + [w.value])
      case End(name) => if ElementOf(name).ResponseElement? then Done(verbs, ts[1..]) else Failed
      case _ => ResponseBody(ts[1..], verbs)
  }

  function ParseTokens(ts: seq<Token>): Walk<seq<Verb>>
  {
    if ts == [] then Failed
    else match ts[0]
      case Start(name, _) => if ElementOf(name).ResponseElement? then ResponseBody(ts[1..], []) else Failed
      case _ => ParseTokens(ts[1..])
  }

  // ---------------------------------------------------------------------------------------------
  // The program

  /** What a parse method returns and how far it has read, against the walk. */
  ghost predicate Agrees<T>(w: Walk<T>, r: Parsed<T>, rest: seq<Token>) {
    match w
    case Failed => r == Err(ERROR_CODE_MALFORMED)
    case Done(v, left) => r == Ok(v) && rest == left
  }

  ghost predicate Skips(w: Option<seq<Token>>, ok: bool, rest: seq<Token>) {
    if w.None? then !ok else ok && rest == w.value
  }

  class Decoder {
    const tokens: seq<Token>
    var pos: nat

    ghost predicate Valid()
      reads this
    {
      pos <= |tokens|
    }

    /** The tokens not read yet. */
    ghost function Rest(): seq<Token>
      requires Valid()
      reads this
    {
      tokens[pos..]
    }

    constructor (tokens: seq<Token>)
      ensures Valid() && this.tokens == tokens && Rest() == tokens
    {
      this.tokens := tokens;
      pos := 0;
    }

    /** None is the lexer's error, end of file included. */
    method Token() returns (t: Option<Token>)
      requires Valid()
      modifies this
      ensures Valid() && old(Rest()) == (if t.Some? then [t.value] else []) + Rest()
      ensures t.None? <==> old(Rest()) == []
    {
      if pos == |tokens| {
        t := None;
      } else {
        t := Some(tokens[pos]);
        pos := pos + 1;
      }
    }

    /** Decoder.Skip of encoding/xml. */
    method SkipSubtree() returns (ok: bool)
      requires Valid()
      modifies this
      ensures Valid() && Skips(Skip(old(Rest()), 0), ok, Rest())
    {
      var depth: nat := 0;
      while true
        invariant Valid() && Skip(Rest(), depth) == Skip(old(Rest()), 0)
        decreases |Rest()|
      {
        var t := Token();
        if t.None? {
          return false;
        }
        match t.value {
          case Start(_, _) => depth := depth + 1;
          case End(_) =>
            if depth == 0 {
              return true;
            }
            depth := depth - 1;
          case _ =>
        }
      }
    }

    method SkipToEndOf(name: Name) returns (ok: bool)
      requires Valid()
      modifies this
      ensures Valid() && Skips(SkipToEnd(old(Rest()), name.local, 0), ok, Rest())
    {
      var depth := 0;
      while true
        invariant Valid() && SkipToEnd(Rest(), name.local, depth) == SkipToEnd(old(Rest()), name.local, 0)
        decreases |Rest()|
      {
        var t := Token();
        if t.None? {
          return false;
        }
        match t.value {
          case Start(_, _) => depth := depth + 1;
          case End(n) =>
            if depth == 0 && n.local == name.local {
              return true;
            }
            depth := depth - 1;
          case _ =>
        }
      }
    }

    method ParseStream(attrs: seq<Attr>) returns (r: Parsed<Stream>)
      requires Valid()
      modifies this
      ensures Valid() && Agrees(StreamBody(old(Rest()), StreamOf(attrs, map[])), r, Rest())
    {
      var s := ReadStreamAttrs(attrs);
      while true
        invariant Valid() && StreamBody(Rest(), s) == StreamBody(old(Rest()), StreamOf(attrs, map[]))
        decreases |Rest()|
      {
        var t := Token();
        if t.None? {
          return Err(ERROR_CODE_MALFORMED);
        }
        match t.value {
          case Start(name, childAttrs) =>
            if ElementOf(name).ParameterElement? {
              var pn := ReadStr(childAttrs, NameKey);
              var pv := ReadStr(childAttrs, ValueKey);
              if pn != "" {
                s := s.(parameters := s.parameters[pn := pv]);
              }
            }
            var ok := SkipSubtree();
            if !ok {
              return Err(ERROR_CODE_MALFORMED);
            }
          case End(name) =>
            if ElementOf(name).StreamElement? {
              return Ok(s);
            }
          case _ =>
        }
      }
    }

    method ParseConnect() returns (r: Parsed<Option<Stream>>)
      requires Valid()
      modifies this
      ensures Valid() && Agrees(ConnectBody(old(Rest()), None), r, Rest())
    {
      var c: Option<Stream> := None;
      while true
        invariant Valid() && ConnectBody(Rest(), c) == ConnectBody(old(Rest()), None)
        decreases |Rest()|
      {
        var t := Token();
        if t.None? {
          return Err(ERROR_CODE_MALFORMED);
        }
        match t.value {
          case Start(name, attrs) =>
            if ElementOf(name).StreamElement? {
              var s := ParseStream(attrs);
              if s.Err? {
                return Err(s.code);
              }
              c := Some(s.value);
            } else {
              var ok := SkipSubtree();
              if !ok {
                return Err(ERROR_CODE_MALFORMED);
              }
            }
          case End(name) =>
            if ElementOf(name).ConnectElement? {
              return Ok(c);
            }
          case _ =>
        }
      }
    }

    /** The token loops of parseNumber and parseRedirect. */
    method ParseText(el: Element) returns (r: Parsed<string>)
      requires Valid()
      modifies this
      ensures Valid() && Agrees(TextBody(old(Rest()), el, ""), r, Rest())
    {
      var text := "";
      while true
        invariant Valid() && TextBody(Rest(), el, text) == TextBody(old(Rest()), el, "")
        decreases |Rest()|
      {
        var t := Token();
        if t.None? {
          return Err(ERROR_CODE_MALFORMED);
        }
        match t.value {
          case Chars(more) => text := text + more;
          case Start(_, _) =>
            var ok := SkipSubtree();
            if !ok {
              return Err(ERROR_CODE_MALFORMED);
            }
          case End(name) =>
            if ElementOf(name) == el {
              return Ok(text);
            }
          case Other =>
        }
      }
    }

    method ParseNumber(attrs: seq<Attr>) returns (r: Parsed<Number>)
      requires Valid()
      modifies this
      ensures Valid() && Agrees(NumberWalk(old(Rest()), attrs), r, Rest())
    {
      var n := ReadNumberAttrs(attrs);
      if n.Err? {
        return Err(n.code);
      }
      var text := ParseText(NumberElement);
      r := if text.Err? then Err(text.code) else Ok(Number(n.value, text.value));
    }

    /** The token loop of parseDial. */
    method ParseDialChildren(init: Dial) returns (r: Parsed<Dial>)
      requires Valid()
      modifies this
      ensures Valid() && Agrees(DialBody(old(Rest()), init), r, Rest())
    {
      var d := init;
      while true
        invariant Valid() && DialBody(Rest(), d) == DialBody(old(Rest()), init)
        decreases |Rest()|
      {
        var t := Token();
        if t.None? {
          return Err(ERROR_CODE_MALFORMED);
        }
        match t.value {
          case Chars(more) => d := d.(numberText := d.numberText + more);
          case Start(name, childAttrs) =>
            if ElementOf(name).NumberElement? {
              var n := ParseNumber(childAttrs);
              if n.Err? {
                return Err(n.code);
              }
              d := d.(number := Some(n.value));
            } else {
              d := d.(has := Flag(d.has, ElementOf(name)));
              var ok := SkipSubtree();
              if !ok {
                return Err(ERROR_CODE_MALFORMED);
              }
            }
          case End(name) =>
            if ElementOf(name).DialElement? {
              return Ok(d);
            }
          case Other =>
        }
      }
    }

    method ParseDial(attrs: seq<Attr>) returns (r: Parsed<Dial>)
      requires Valid()
      modifies this
      ensures Valid()
      ensures Agrees(if EventsKnown(attrs) then DialBody(old(Rest()), NewDial(attrs)) else Failed, r, Rest())
    {
      var read := ReadDialAttrs(attrs);
      if read.Err? {
        return Err(read.code);
      }
      r := ParseDialChildren(Dial(read.value, "", None, Rejected(false, false, false, false)));
    }

    /** The branches of parseResponseChildren on a start tag. */
    method ParseVerb(name: Name, attrs: seq<Attr>) returns (r: Parsed<Verb>)
      requires Valid()
      modifies this
      ensures Valid() && Agrees(VerbWalk(old(Rest()), name, attrs), r, Rest())
    {
      match ElementOf(name) {
        case ConnectElement =>
          var c := ParseConnect();
          r := if c.Err? then Err(c.code) else Ok(Connect(c.value));
        case DialElement =>
          var d := ParseDial(attrs);
          r := if d.Err? then Err(d.code) else Ok(DialVerb(d.value));
        case HangupElement =>
          var ok := SkipToEndOf(name);
          r := if ok then Ok(Hangup) else Err(ERROR_CODE_MALFORMED);
        case RedirectElement =>
          var httpMethod := ReadStr(attrs, MethodKey);
          var url := ParseText(RedirectElement);
          r := if url.Err? then Err(url.code) else Ok(Redirect(httpMethod, url.value));
        case RejectElement =>
          var reason := ReadStr(attrs, ReasonKey);
          var ok := SkipToEndOf(name);
          r := if ok then Ok(Reject(reason)) else Err(ERROR_CODE_MALFORMED);
        case _ =>
          var ok := SkipSubtree();
          r := if ok then Ok(Unknown(name)) else Err(ERROR_CODE_MALFORMED);
      }
    }

    method ParseResponseChildren() returns (r: Parsed<seq<Verb>>)
      requires Valid()
      modifies this
      ensures Valid() && Agrees(ResponseBody(old(Rest()), []), r, Rest())
    {
      var verbs: seq<Verb> := [];
      while true
        invariant Valid() && ResponseBody(Rest(), verbs) == ResponseBody(old(Rest()), [])
        decreases |Rest()|
      {
        var t := Token();
        if t.None? {
          return Err(ERROR_CODE_MALFORMED);
        }
        match t.value {
          case Start(name, attrs) =>
            var v := ParseVerb(name, attrs);
            if v.Err? {
              return Err(v.code);
            }
            verbs := verbs + [v.value];
          case End(name) =>
            return if ElementOf(name).ResponseElement? then Ok(verbs) else Err(ERROR_CODE_MALFORMED);
          case _ =>
        }
      }
    }

    method Parse() returns (r: Parsed<seq<Verb>>)
      requires Valid()
      modifies this
      ensures Valid() && Agrees(ParseTokens(old(Rest())), r, Rest())
    {
      while true
        invariant Valid() && ParseTokens(Rest()) == ParseTokens(old(Rest()))
        decreases |Rest()|
      {
        var t := Token();
        if t.None? {
          return Err(ERROR_CODE_MALFORMED);
        }
        if t.value.Start? {
          if !ElementOf(t.value.name).ResponseElement? {
            return Err(ERROR_CODE_MALFORMED);
          }
          r := ParseResponseChildren();
          return;
        }
      }
    }
  }
}
