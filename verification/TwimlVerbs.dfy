/** TwiML verbs, their attributes and the status-callback event list
    (go/internal/twiml/verbs.go, go/internal/twiml/parse.go:46-77). Error messages are not modelled. */
module TwimlVerbs {

  import opened Collections

  const ERROR_CODE_MALFORMED := 12100

  datatype Parsed<T> = Ok(value: T) | Err(code: int)

  /** xml.Name: namespace and local part. */
  datatype Name = Name(space: string, local: string)

  datatype Attr = Attr(name: Name, value: string)

  datatype Stream = Stream(url: string, name: string, track: string, parameters: map<string, string>)

  datatype NumberAttrs = NumberAttrs(statusCallback: string, statusCallbackMethod: string, events: seq<string>)

  datatype Number = Number(attrs: NumberAttrs, text: string)

  datatype DialAttrs = DialAttrs(
    callerId: string,
    timeout: Option<int>,
    timeLimit: Option<int>,
    hangupOnStar: bool,
    action: string,
    httpMethod: string,
    answerOnBridge: Option<bool>,
    statusCallback: string,
    statusCallbackMethod: string,
    events: seq<string>)

  datatype Rejected = Rejected(sip: bool, client: bool, conference: bool, queue: bool)

  datatype Dial = Dial(attrs: DialAttrs, numberText: string, number: Option<Number>, has: Rejected)

  datatype Verb =
    | Connect(stream: Option<Stream>)
    | DialVerb(dial: Dial)
    | Hangup
    | Redirect(httpMethod: string, url: string)
    | Reject(reason: string)
    | Unknown(name: Name)

  // ---------------------------------------------------------------------------------------------
  // Status-callback events

  /** unicode.IsSpace. */
  predicate IsSpace(c: char) {
    || '\t' <= c <= '\r' || c == ' ' || c == '\U{85}' || c == '\U{A0}' || c == '\U{1680}'
    || '\U{2000}' <= c <= '\U{200A}' || c == '\U{2028}' || c == '\U{2029}' || c == '\U{202F}'
    || c == '\U{205F}' || c == '\U{3000}'
  }

  /** The characters with the Unicode property White_Space. */
  lemma SpacesAre(c: char)
    ensures IsSpace(c) <==>
              c as int in {9, 10, 11, 12, 13, 32, 133, 160, 5760, 8192, 8193, 8194, 8195, 8196, 8197, 8198, 8199, 8200,
                           8201, 8202, 8232, 8233, 8239, 8287, 12288}
  {
  }

  predicate IsSeparator(c: char) {
    c == ',' || IsSpace(c)
  }

  /** strings.FieldsFunc with IsSeparator; `word` is the field being read. */
  function FieldsFrom(raw: string, word: string): seq<string> {
    if raw == [] then (if word == [] then [] else [word])
    else if IsSeparator(raw[0]) then (if word == [] then [] else [word]) + FieldsFrom(raw[1..], [])
    else FieldsFrom(raw[1..], word + [raw[0]])
  }

  function Fields(raw: string): seq<string> {
    FieldsFrom(raw, [])
  }

  predicate ValidEvent(v: string) {
    v == "initiated" || v == "ringing" || v == "answered" || v == "in-progress" || v == "completed"
    || v == "busy" || v == "failed" || v == "no-answer" || v == "canceled"
  }

  function Events(raw: string): Parsed<seq<string>> {
    if forall t :: t in Fields(raw) ==> ValidEvent(t) then Ok(Fields(raw)) else Err(ERROR_CODE_MALFORMED)
  }

  method ParseStatusCallbackEvents(raw: string) returns (r: Parsed<seq<string>>)
    ensures r == Events(raw)
  {
    var tokens := Fields(raw);
    var out: seq<string> := [];
    for i := 0 to |tokens|
      invariant out == tokens[..i]
      invariant forall t :: t in out ==> ValidEvent(t)
    {
      if !ValidEvent(tokens[i]) {
        assert tokens[i] in tokens;
        return Err(ERROR_CODE_MALFORMED);
      }
      out := out + [tokens[i]];
    }
    assert tokens[..|tokens|] == tokens;
    r := Ok(out);
  }

  lemma {:induction false} FieldsSplitFrom(a: string, c: char, b: string, word: string)
    requires IsSeparator(c)
    ensures FieldsFrom(a + [c] + b, word) == FieldsFrom(a, word) + Fields(b)
  {
    if a == [] {
      assert (a + [c] + b)[1..] == b;
    } else {
      assert (a + [c] + b)[1..] == a[1..] + [c] + b;
      FieldsSplitFrom(a[1..], c, b, if IsSeparator(a[0]) then [] else word + [a[0]]);
    }
  }

  /** Spaces and commas separate alike, in any mix. Together with FieldsOfWord this determines Fields. */
  lemma FieldsSplit(a: string, c: char, b: string)
    requires IsSeparator(c)
    ensures Fields(a + [c] + b) == Fields(a) + Fields(b)
  {
    FieldsSplitFrom(a, c, b, []);
  }

  lemma {:induction false} FieldsOfWordFrom(w: string, word: string)
    requires forall c :: c in w ==> !IsSeparator(c)
    ensures FieldsFrom(w, word) == if word + w == [] then [] else [word + w]
  {
    if w == [] {
      assert word + w == word;
    } else {
      assert word + [w[0]] + w[1..] == word + w;
      FieldsOfWordFrom(w[1..], word + [w[0]]);
    }
  }

  lemma FieldsOfWord(w: string)
    requires w != [] && forall c :: c in w ==> !IsSeparator(c)
    ensures Fields(w) == [w]
  {
    FieldsOfWordFrom(w, []);
    assert [] + w == w;
  }

  /** Two event lists are accepted together exactly if each is. */
  lemma EventsConcat(a: string, c: char, b: string)
    requires IsSeparator(c)
    ensures Events(a + [c] + b) == match (Events(a), Events(b))
                                   case (Ok(x), Ok(y)) => Ok(x + y)
                                   case _ => Err(ERROR_CODE_MALFORMED)
  {
    FieldsSplit(a, c, b);
    var x, y := Fields(a), Fields(b);
    assert forall t :: t in x + y <==> t in x || t in y;
  }

  // ---------------------------------------------------------------------------------------------
  // Attributes

  /** The attribute names the parser knows, by local part. */
  datatype Key =
    | CallerIdKey | TimeoutKey | TimeLimitKey | HangupOnStarKey | ActionKey | MethodKey | AnswerOnBridgeKey
    | StatusCallbackKey | StatusCallbackMethodKey | StatusCallbackEventKey
    | UrlKey | NameKey | TrackKey | ValueKey | ReasonKey | OtherKey

  function KeyOf(a: Attr): Key {
    match a.name.local
    case "callerId" => CallerIdKey
    case "timeout" => TimeoutKey
    case "timeLimit" => TimeLimitKey
    case "hangupOnStar" => HangupOnStarKey
    case "action" => ActionKey
    case "method" => MethodKey
    case "answerOnBridge" => AnswerOnBridgeKey
    case "statusCallback" => StatusCallbackKey
    case "statusCallbackMethod" => StatusCallbackMethodKey
    case "statusCallbackEvent" => StatusCallbackEventKey
    case "url" => UrlKey
    case "name" => NameKey
    case "track" => TrackKey
    case "value" => ValueKey
    case "reason" => ReasonKey
    case _ => OtherKey
  }

  /** The reading of the last attribute of that name whose value reads at all. */
  function LastAttr<T>(attrs: seq<Attr>, key: Key, read: string -> Option<T>): Option<T> {
    if attrs == [] then None
    else
      var last := attrs[|attrs| - 1];
      if KeyOf(last) == key && read(last.value).Some? then read(last.value)
      else LastAttr(attrs[..|attrs| - 1], key, read)
  }

  function Verbatim(v: string): Option<string> {
    Some(v)
  }

  function IsTrue(v: string): Option<bool> {
    Some(v == "true")
  }

  function Str(attrs: seq<Attr>, key: Key): string {
    var v := LastAttr(attrs, key, Verbatim);
    if v.Some? then v.value else ""
  }

  predicate IsDigits(s: string) {
    s != [] && forall i :: 0 <= i < |s| ==> '0' <= s[i] <= '9'
  }

  function DecimalValue(s: string): nat
    requires forall i :: 0 <= i < |s| ==> '0' <= s[i] <= '9'
  {
    if s == [] then 0
    else
      10 * DecimalValue(s[..|s| - 1]) + (s[|s| - 1] as int - '0' as int)
  }

  /** strconv.Atoi on a 64-bit platform: an optional sign, digits, and a value in range. */
  function Atoi(s: string): Option<int> {
    var negative := s != [] && s[0] == '-';
    var digits := if s != [] && (s[0] == '-' || s[0] == '+') then s[1..] else s;
    if !IsDigits(digits) then None
    else
      InRange(if negative then 0 - DecimalValue(digits) else DecimalValue(digits))
  }

  function InRange(n: int): Option<int> {
    if -0x8000_0000_0000_0000 <= n < 0x8000_0000_0000_0000 then Some(n) else None
  }

  lemma AtoiOfDigits(digits: string)
    requires IsDigits(digits)
    ensures Atoi(digits) == InRange(DecimalValue(digits))
  {
    assert '0' <= digits[0] <= '9';
  }

  lemma AtoiOfSigned(digits: string)
    requires IsDigits(digits)
    ensures Atoi("+" + digits) == InRange(DecimalValue(digits)) && Atoi("-" + digits) == InRange(0 - DecimalValue(digits))
  {
    assert ("+" + digits)[1..] == digits && ("-" + digits)[1..] == digits;
  }

  /** The decimal digits of a number, as it would be printed. */
  function Decimal(n: nat): (s: string)
    ensures IsDigits(s)
  {
    if n < 10 then ['0' + n as char] else Decimal(n / 10) + ['0' + (n % 10) as char]
  }

  lemma {:induction false} DecimalReadsBack(n: nat)
    ensures DecimalValue(Decimal(n)) == n
  {
    if n < 10 {
      assert Decimal(n)[..0] == "";
    } else {
      DecimalReadsBack(n / 10);
      var s := Decimal(n);
      assert s[..|s| - 1] == Decimal(n / 10);
    }
  }

  lemma AtoiReads(digits: string, n: nat)
    requires IsDigits(digits) && DecimalValue(digits) == n
    ensures n < 0x8000_0000_0000_0000 ==> Atoi(digits) == Atoi("+" + digits) == Some(n)
    ensures n >= 0x8000_0000_0000_0000 ==> Atoi(digits) == None
    ensures n <= 0x8000_0000_0000_0000 ==> Atoi("-" + digits) == Some(0 - n)
  {
    AtoiOfDigits(digits);
    AtoiOfSigned(digits);
  }

  /** Every 64-bit number is read back from its decimal form, with or without a plus sign. */
  lemma AtoiReadsNumbers(n: nat)
    ensures n < 0x8000_0000_0000_0000 ==> Atoi(Decimal(n)) == Atoi("+" + Decimal(n)) == Some(n)
    ensures n >= 0x8000_0000_0000_0000 ==> Atoi(Decimal(n)) == None
    ensures Atoi("-" + Decimal(n)) == if n <= 0x8000_0000_0000_0000 then Some(0 - n) else None
  {
    DecimalReadsBack(n);
    AtoiReads(Decimal(n), n);
  }

  function EventList(raw: string): Option<seq<string>> {
    if Events(raw).Ok? then Some(Events(raw).value) else None
  }

  function EventsOf(attrs: seq<Attr>): seq<string> {
    var v := LastAttr(attrs, StatusCallbackEventKey, EventList);
    if v.Some? then v.value else []
  }

  predicate EventKnown(a: Attr) {
    KeyOf(a) == StatusCallbackEventKey ==> Events(a.value).Ok?
  }

  /** Every event list among the attributes names known events only. */
  predicate EventsKnown(attrs: seq<Attr>) {
    forall i :: 0 <= i < |attrs| ==> EventKnown(attrs[i])
  }

  lemma EventsKnownSnoc(attrs: seq<Attr>, a: Attr)
    ensures EventsKnown(attrs + [a]) <==> EventsKnown(attrs) && EventKnown(a)
  {
    assert (attrs + [a])[|attrs|] == a;
    if EventsKnown(attrs + [a]) {
      forall i | 0 <= i < |attrs|
        ensures EventKnown(attrs[i])
      {
        assert (attrs + [a])[i] == attrs[i];
      }
    }
  }

  /** The event-list check of one attribute. */
  method CheckEvents(a: Attr) returns (known: bool)
    ensures known <==> EventKnown(a)
  {
    known := true;
    if KeyOf(a) == StatusCallbackEventKey {
      var events := ParseStatusCallbackEvents(a.value);
      known := events.Ok?;
    }
  }

  function DialAttrsOf(attrs: seq<Attr>): DialAttrs {
    DialAttrs(
      Str(attrs, CallerIdKey),
      LastAttr(attrs, TimeoutKey, Atoi),
      LastAttr(attrs, TimeLimitKey, Atoi),
      LastAttr(attrs, HangupOnStarKey, IsTrue) == Some(true),
      Str(attrs, ActionKey),
      Str(attrs, MethodKey),
      LastAttr(attrs, AnswerOnBridgeKey, IsTrue),
      Str(attrs, StatusCallbackKey),
      Str(attrs, StatusCallbackMethodKey),
      EventsOf(attrs))
  }

  function NumberAttrsOf(attrs: seq<Attr>): NumberAttrs {
    NumberAttrs(Str(attrs, StatusCallbackKey), Str(attrs, StatusCallbackMethodKey), EventsOf(attrs))
  }

  function StreamOf(attrs: seq<Attr>, parameters: map<string, string>): Stream {
    Stream(Str(attrs, UrlKey), Str(attrs, NameKey), Str(attrs, TrackKey), parameters)
  }

  /** What parseDial makes of one more attribute. */
  function SetDialAttr(d: DialAttrs, a: Attr): DialAttrs {
    SetDial(d, KeyOf(a), a.value)
  }

  function SetDial(d: DialAttrs, key: Key, v: string): DialAttrs {
    match key
    case CallerIdKey => d.(callerId := v)
    case TimeoutKey => if Atoi(v).Some? then d.(timeout := Atoi(v)) else d
    case TimeLimitKey => if Atoi(v).Some? then d.(timeLimit := Atoi(v)) else d
    case HangupOnStarKey => d.(hangupOnStar := v == "true")
    case ActionKey => d.(action := v)
    case MethodKey => d.(httpMethod := v)
    case AnswerOnBridgeKey => d.(answerOnBridge := Some(v == "true"))
    case StatusCallbackKey => d.(statusCallback := v)
    case StatusCallbackMethodKey => d.(statusCallbackMethod := v)
    case StatusCallbackEventKey => if Events(v).Ok? then d.(events := Events(v).value) else d
    case _ => d
  }

  lemma LastAttrSnoc<T>(attrs: seq<Attr>, a: Attr, key: Key, read: string -> Option<T>)
    ensures LastAttr(attrs + [a], key, read)
         == if KeyOf(a) == key && read(a.value).Some? then read(a.value) else LastAttr(attrs, key, read)
  {
    assert (attrs + [a])[..|attrs|] == attrs;
  }

  lemma StrSnoc(attrs: seq<Attr>, a: Attr, key: Key)
    ensures Str(attrs + [a], key) == if KeyOf(a) == key then a.value else Str(attrs, key)
  {
    LastAttrSnoc(attrs, a, key, Verbatim);
  }

  lemma EventsOfSnoc(attrs: seq<Attr>, a: Attr)
    ensures EventsOf(attrs + [a])
         == if KeyOf(a) == StatusCallbackEventKey && Events(a.value).Ok? then Events(a.value).value else EventsOf(attrs)
  {
    LastAttrSnoc(attrs, a, StatusCallbackEventKey, EventList);
  }

  /** The ten fields of `e` after an attribute with this key and value. */
  predicate DialFieldsFit(d: DialAttrs, e: DialAttrs, key: Key, v: string) {
    && e.callerId == (if key == CallerIdKey then v else d.callerId)
    && e.timeout == (if key == TimeoutKey && Atoi(v).Some? then Atoi(v) else d.timeout)
    && e.timeLimit == (if key == TimeLimitKey && Atoi(v).Some? then Atoi(v) else d.timeLimit)
    && e.hangupOnStar == (if key == HangupOnStarKey then v == "true" else d.hangupOnStar)
    && e.action == (if key == ActionKey then v else d.action)
    && e.httpMethod == (if key == MethodKey then v else d.httpMethod)
    && e.answerOnBridge == (if key == AnswerOnBridgeKey then Some(v == "true") else d.answerOnBridge)
    && e.statusCallback == (if key == StatusCallbackKey then v else d.statusCallback)
    && e.statusCallbackMethod == (if key == StatusCallbackMethodKey then v else d.statusCallbackMethod)
    && e.events == (if key == StatusCallbackEventKey && Events(v).Ok? then Events(v).value else d.events)
  }

  lemma DialFieldsSet(d: DialAttrs, e: DialAttrs, key: Key, v: string)
    requires DialFieldsFit(d, e, key, v)
    ensures e == SetDial(d, key, v)
  {
  }

  lemma DialAttrsSnoc(attrs: seq<Attr>, a: Attr)
    ensures DialAttrsOf(attrs + [a]) == SetDialAttr(DialAttrsOf(attrs), a)
  {
    StrSnoc(attrs, a, CallerIdKey);
    LastAttrSnoc(attrs, a, TimeoutKey, Atoi);
    LastAttrSnoc(attrs, a, TimeLimitKey, Atoi);
    LastAttrSnoc(attrs, a, HangupOnStarKey, IsTrue);
    StrSnoc(attrs, a, ActionKey);
    StrSnoc(attrs, a, MethodKey);
    LastAttrSnoc(attrs, a, AnswerOnBridgeKey, IsTrue);
    StrSnoc(attrs, a, StatusCallbackKey);
    StrSnoc(attrs, a, StatusCallbackMethodKey);
    EventsOfSnoc(attrs, a);
    DialFieldsSet(DialAttrsOf(attrs), DialAttrsOf(attrs + [a]), KeyOf(a), a.value);
  }

  const NO_DIAL_ATTRS := DialAttrs("", None, None, false, "", "", None, "", "", [])

  lemma NoDialAttrs()
    ensures DialAttrsOf([]) == NO_DIAL_ATTRS
  {
  }

  /** The loop invariant of parseDial's attributes, one attribute further. */
  lemma DialAttrsStep(attrs: seq<Attr>, i: nat)
    requires i < |attrs| && EventsKnown(attrs[..i]) && EventKnown(attrs[i])
    ensures EventsKnown(attrs[..i + 1]) && DialAttrsOf(attrs[..i + 1]) == SetDialAttr(DialAttrsOf(attrs[..i]), attrs[i])
  {
    assert attrs[..i + 1] == attrs[..i] + [attrs[i]];
    EventsKnownSnoc(attrs[..i], attrs[i]);
    DialAttrsSnoc(attrs[..i], attrs[i]);
  }

  /** The attribute loop of parseDial. */
  method ReadDialAttrs(attrs: seq<Attr>) returns (r: Parsed<DialAttrs>)
    ensures r == if EventsKnown(attrs) then Ok(DialAttrsOf(attrs)) else Err(ERROR_CODE_MALFORMED)
  {
    var d := NO_DIAL_ATTRS;
    NoDialAttrs();
    for i := 0 to |attrs|
      invariant d == DialAttrsOf(attrs[..i]) && EventsKnown(attrs[..i])
    {
      var known := CheckEvents(attrs[i]);
      if !known {
        return Err(ERROR_CODE_MALFORMED);
      }
      DialAttrsStep(attrs, i);
      d := SetDialAttr(d, attrs[i]);
    }
    assert attrs[..|attrs|] == attrs;
    r := Ok(d);
  }

  /** What parseNumber makes of one more attribute. */
  function SetNumberAttr(n: NumberAttrs, a: Attr): NumberAttrs {
    match KeyOf(a)
    case StatusCallbackKey => n.(statusCallback := a.value)
    case StatusCallbackMethodKey => n.(statusCallbackMethod := a.value)
    case StatusCallbackEventKey => if Events(a.value).Ok? then n.(events := Events(a.value).value) else n
    case _ => n
  }

  lemma NumberAttrsSnoc(attrs: seq<Attr>, a: Attr)
    ensures NumberAttrsOf(attrs + [a]) == SetNumberAttr(NumberAttrsOf(attrs), a)
  {
    LastAttrSnoc(attrs, a, StatusCallbackKey, Verbatim);
    LastAttrSnoc(attrs, a, StatusCallbackMethodKey, Verbatim);
    LastAttrSnoc(attrs, a, StatusCallbackEventKey, EventList);
  }

  /** The attribute loop of parseNumber. */
  method ReadNumberAttrs(attrs: seq<Attr>) returns (r: Parsed<NumberAttrs>)
    ensures r == if EventsKnown(attrs) then Ok(NumberAttrsOf(attrs)) else Err(ERROR_CODE_MALFORMED)
  {
    var n := NumberAttrs("", "", []);
    for i := 0 to |attrs|
      invariant n == NumberAttrsOf(attrs[..i]) && EventsKnown(attrs[..i])
    {
      var a := attrs[i];
      var known := CheckEvents(a);
      if !known {
        return Err(ERROR_CODE_MALFORMED);
      }
      assert attrs[..i + 1] == attrs[..i] + [a];
      EventsKnownSnoc(attrs[..i], a);
      NumberAttrsSnoc(attrs[..i], a);
      n := SetNumberAttr(n, a);
    }
    assert attrs[..|attrs|] == attrs;
    r := Ok(n);
  }

  /** The attribute loop of parseStream. */
  method ReadStreamAttrs(attrs: seq<Attr>) returns (s: Stream)
    ensures s == StreamOf(attrs, map[])
  {
    s := Stream("", "", "", map[]);
    for i := 0 to |attrs|
      invariant s == StreamOf(attrs[..i], map[])
    {
      var a := attrs[i];
      assert attrs[..i + 1][..i] == attrs[..i];
      match KeyOf(a) {
        case UrlKey => s := s.(url := a.value);
        case NameKey => s := s.(name := a.value);
        case TrackKey => s := s.(track := a.value);
        case _ =>
      }
    }
    assert attrs[..|attrs|] == attrs;
  }

  /** The loops that look for one or two plain attributes (Parameter, Redirect, Reject). */
  method ReadStr(attrs: seq<Attr>, key: Key) returns (s: string)
    ensures s == Str(attrs, key)
  {
    s := "";
    for i := 0 to |attrs|
      invariant s == Str(attrs[..i], key)
    {
      assert attrs[..i + 1][..i] == attrs[..i];
      if KeyOf(attrs[i]) == key {
        s := attrs[i].value;
      }
    }
    assert attrs[..|attrs|] == attrs;
  }

  /** From position `from` on no attribute of that name reads. */
  predicate NoneReads<T>(attrs: seq<Attr>, key: Key, read: string -> Option<T>, from: nat) {
    forall j :: from <= j < |attrs| && KeyOf(attrs[j]) == key ==> read(attrs[j].value).None?
  }

  lemma NoneReadsSnoc<T>(attrs: seq<Attr>, key: Key, read: string -> Option<T>, from: nat)
    requires attrs != [] && NoneReads(attrs[..|attrs| - 1], key, read, from)
    requires KeyOf(attrs[|attrs| - 1]) == key ==> read(attrs[|attrs| - 1].value).None?
    ensures NoneReads(attrs, key, read, from)
  {
    var n := |attrs| - 1;
    forall j | from <= j < |attrs| && KeyOf(attrs[j]) == key
      ensures read(attrs[j].value).None?
    {
      assert j < n ==> attrs[..n][j] == attrs[j];
    }
  }

  /** LastAttr is the last readable occurrence: there is none after it, and none at all for None. */
  lemma {:induction false} LastAttrIsLast<T>(attrs: seq<Attr>, key: Key, read: string -> Option<T>)
    ensures LastAttr(attrs, key, read).Some? ==>
              exists i :: 0 <= i < |attrs| && KeyOf(attrs[i]) == key && read(attrs[i].value) == LastAttr(attrs, key, read)
                && NoneReads(attrs, key, read, i + 1)
    ensures LastAttr(attrs, key, read).None? ==> NoneReads(attrs, key, read, 0)
  {
    if attrs != [] {
      var n := |attrs| - 1;
      if KeyOf(attrs[n]) == key && read(attrs[n].value).Some? {
        assert NoneReads(attrs, key, read, n + 1);
      } else {
        LastAttrIsLast(attrs[..n], key, read);
        if LastAttr(attrs, key, read).Some? {
          var i :| 0 <= i < n && KeyOf(attrs[..n][i]) == key && read(attrs[..n][i].value) == LastAttr(attrs, key, read)
            && NoneReads(attrs[..n], key, read, i + 1);
          assert KeyOf(attrs[i]) == key;
          NoneReadsSnoc(attrs, key, read, i + 1);
        } else {
          NoneReadsSnoc(attrs, key, read, 0);
        }
      }
    }
  }

  // ---------------------------------------------------------------------------------------------
  // The attribute names, as they are written

  /** One attribute, in whatever namespace. */
  lemma OneDialAttr(a: Attr)
    ensures DialAttrsOf([a]) == SetDial(NO_DIAL_ATTRS, KeyOf(a), a.value)
  {
    NoDialAttrs();
    DialAttrsSnoc([], a);
    assert [] + [a] == [a];
  }

  /** The field of a Dial that an attribute sets by its name. */
  function DialByName(a: Attr): DialAttrs {
    match a.name.local
    case "callerId" => NO_DIAL_ATTRS.(callerId := a.value)
    case "timeout" => NO_DIAL_ATTRS.(timeout := Atoi(a.value))
    case "timeLimit" => NO_DIAL_ATTRS.(timeLimit := Atoi(a.value))
    case "hangupOnStar" => NO_DIAL_ATTRS.(hangupOnStar := a.value == "true")
    case "action" => NO_DIAL_ATTRS.(action := a.value)
    case "method" => NO_DIAL_ATTRS.(httpMethod := a.value)
    case "answerOnBridge" => NO_DIAL_ATTRS.(answerOnBridge := Some(a.value == "true"))
    case "statusCallback" => NO_DIAL_ATTRS.(statusCallback := a.value)
    case "statusCallbackMethod" => NO_DIAL_ATTRS.(statusCallbackMethod := a.value)
    case "statusCallbackEvent" => NO_DIAL_ATTRS.(events := if Events(a.value).Ok? then Events(a.value).value else [])
    case _ => NO_DIAL_ATTRS
  }

  lemma SetsByName(a: Attr)
    ensures SetDial(NO_DIAL_ATTRS, KeyOf(a), a.value) == DialByName(a)
  {
    match a.name.local
    case "callerId" =>
    case "timeout" =>
    case "timeLimit" =>
    case "hangupOnStar" =>
    case "action" =>
    case "method" =>
    case "answerOnBridge" =>
    case "statusCallback" =>
    case "statusCallbackMethod" =>
    case "statusCallbackEvent" =>
    case _ =>
  }

  /** Each attribute of Dial lands in its own field, by its name; one by another name sets nothing. */
  lemma DialNames(a: Attr)
    ensures DialAttrsOf([a]) == DialByName(a)
  {
    OneDialAttr(a);
    SetsByName(a);
  }

  lemma OneNumberAttr(a: Attr)
    ensures NumberAttrsOf([a]) == SetNumberAttr(NumberAttrs("", "", []), a)
  {
    NumberAttrsSnoc([], a);
    assert [] + [a] == [a];
  }

  /** So does each attribute of Number. */
  lemma NumberNames(a: Attr)
    ensures NumberAttrsOf([a])
         == match a.name.local
            case "statusCallback" => NumberAttrs(a.value, "", [])
            case "statusCallbackMethod" => NumberAttrs("", a.value, [])
            case "statusCallbackEvent" => NumberAttrs("", "", if Events(a.value).Ok? then Events(a.value).value else [])
            case _ => NumberAttrs("", "", [])
  {
    OneNumberAttr(a);
  }

  lemma OneStr(a: Attr, key: Key)
    ensures Str([a], key) == if KeyOf(a) == key then a.value else ""
  {
    StrSnoc([], a, key);
    assert [] + [a] == [a];
  }

  /** And each attribute of Stream. */
  lemma StreamNames(a: Attr)
    ensures StreamOf([a], map[])
         == match a.name.local
            case "url" => Stream(a.value, "", "", map[])
            case "name" => Stream("", a.value, "", map[])
            case "track" => Stream("", "", a.value, map[])
            case _ => Stream("", "", "", map[])
  {
    OneStr(a, UrlKey);
    OneStr(a, NameKey);
    OneStr(a, TrackKey);
  }

  /** The attributes of Parameter, Redirect and Reject. */
  lemma OtherNames(a: Attr)
    ensures Str([a], NameKey) == if a.name.local == "name" then a.value else ""
    ensures Str([a], ValueKey) == if a.name.local == "value" then a.value else ""
    ensures Str([a], MethodKey) == if a.name.local == "method" then a.value else ""
    ensures Str([a], ReasonKey) == if a.name.local == "reason" then a.value else ""
  {
    OneStr(a, NameKey);
    OneStr(a, ValueKey);
    OneStr(a, MethodKey);
    OneStr(a, ReasonKey);
  }

  const EVENT_WORDS: set<string> :=
    {"initiated", "ringing", "answered", "in-progress", "completed", "busy", "failed", "no-answer", "canceled"}

  /** Of the words without separators, nine name an event. */
  lemma NineEvents(word: string)
    requires word != "" && forall c :: c in word ==> !IsSeparator(c)
    ensures Events(word) == if word in EVENT_WORDS then Ok([word]) else Err(12100)
  {
    FieldsOfWord(word);
    assert word in [word];
  }
}
