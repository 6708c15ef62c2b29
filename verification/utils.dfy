/**
 * The helpers of skills/utils.py: slot and session lookup, the per-field
 * merge of spoken values over stored ones, the in-place session update,
 * camel_to_snake, and the None guards of the three formatters.
 *
 * The request and session are typed records here; the reflective
 * dict-to-namedtuple conversion of the source is not part of this model.
 */
module Utils {
  import opened Wrappers

  /** A slot or session value: None, or a string. */
  type Value = Option<string>

  /** Python truthiness of an optional string: present and non-empty. */
  predicate Truthy(v: Value) {
    v.Some? && v.value != ""
  }

  /** Python's `a or b` on optional strings. */
  function Or(a: Value, b: Value): Value {
    if Truthy(a) then a else b
  }

  /** How `'%s' % v` renders an optional string: None prints as "None". */
  function Show(v: Value): string {
    if v.Some? then v.value else "None"
  }

  // ---------------------------------------------------------------------
  // The four booking fields
  // ---------------------------------------------------------------------

  datatype Field = Date | Start | End | Duration

  /** The slot name the speech model uses for a field. */
  function SlotName(f: Field): string {
    match f
    case Date => "Date"
    case Start => "Start"
    case End => "End"
    case Duration => "Duration"
  }

  /** The session key that get_session_data reads for a field. */
  function SessionKey(f: Field): string {
    match f
    case Date => "date"
    case Start => "start"
    case End => "end"
    case Duration => "duration"
  }

  /** The (date, start, end, duration) tuple the helpers return. */
  datatype Booking = Booking(date: Value, start: Value, end: Value, duration: Value) {
    function Get(f: Field): Value {
      match f
      case Date => date
      case Start => start
      case End => end
      case Duration => duration
    }
  }

  lemma BookingExtensional(a: Booking, b: Booking)
    requires forall f :: a.Get(f) == b.Get(f)
    ensures a == b
  {
    assert a.Get(Date) == b.Get(Date) && a.Get(Start) == b.Get(Start);
    assert a.Get(End) == b.Get(End) && a.Get(Duration) == b.Get(Duration);
  }

  // ---------------------------------------------------------------------
  // Requests and sessions
  // ---------------------------------------------------------------------

  /** A slot of the intent: with a `value` attribute (possibly None), or without one. */
  datatype Slot = Valued(value: Value) | Unvalued

  /** A spoken intent: its name and its slots by slot name. */
  datatype Intent = Intent(name: string, slots: map<string, Slot>)

  /** The session attributes dictionary; a stored value may be None. */
  type Attributes = map<string, Value>

  /** `dict.get(key)`: the stored value, or None for an absent key. */
  function Lookup(attributes: Attributes, key: string): Value {
    if key in attributes then attributes[key] else None
  }

  /** get_slot_or_none: the slot's value, None when the slot or its value is missing. */
  function GetSlotOrNone(intent: Intent, name: string): (r: Value)
    ensures name !in intent.slots ==> r == None
    ensures name in intent.slots && intent.slots[name].Unvalued? ==> r == None
    ensures name in intent.slots && intent.slots[name].Valued? ==> r == intent.slots[name].value
    ensures r.Some? ==> name in intent.slots && intent.slots[name] == Valued(r)
  {
    if name in intent.slots then
      match intent.slots[name]
      case Valued(v) => v
      case Unvalued => None
    else
      None
  }

  /** get_slot_data: the values of the Date, Start, End and Duration slots. */
  function GetSlotData(intent: Intent): (b: Booking)
    ensures forall f :: b.Get(f).Some? ==> SlotName(f) in intent.slots && intent.slots[SlotName(f)] == Valued(b.Get(f))
    ensures forall f :: SlotName(f) !in intent.slots ==> b.Get(f) == None
    ensures forall f :: SlotName(f) in intent.slots && intent.slots[SlotName(f)].Valued? ==>
      b.Get(f) == intent.slots[SlotName(f)].value
  {
    Booking(
      GetSlotOrNone(intent, "Date"),
      GetSlotOrNone(intent, "Start"),
      GetSlotOrNone(intent, "End"),
      GetSlotOrNone(intent, "Duration"))
  }

  /** get_session_data: the values stored under the lower-case keys. */
  function GetSessionData(attributes: Attributes): (b: Booking)
    ensures forall f :: SessionKey(f) in attributes ==> b.Get(f) == attributes[SessionKey(f)]
    ensures forall f :: SessionKey(f) !in attributes ==> b.Get(f) == None
  {
    Booking(
      Lookup(attributes, "date"),
      Lookup(attributes, "start"),
      Lookup(attributes, "end"),
      Lookup(attributes, "duration"))
  }

  /**
   * merge_data: per field, the spoken value when it is truthy, otherwise the
   * stored one.
   */
  function MergeData(intent: Intent, attributes: Attributes): (m: Booking)
    ensures forall f :: Truthy(GetSlotData(intent).Get(f)) ==> m.Get(f) == GetSlotData(intent).Get(f)
    ensures forall f :: !Truthy(GetSlotData(intent).Get(f)) ==> m.Get(f) == GetSessionData(attributes).Get(f)
  {
    var spoken := GetSlotData(intent);
    var stored := GetSessionData(attributes);
    Booking(
      Or(spoken.date, stored.date),
      Or(spoken.start, stored.start),
      Or(spoken.end, stored.end),
      Or(spoken.duration, stored.duration))
  }

  /** With no truthy slot value, the merge is exactly the stored tuple. */
  lemma MergeWithoutSpokenValues(intent: Intent, attributes: Attributes)
    requires forall f :: !Truthy(GetSlotData(intent).Get(f))
    ensures MergeData(intent, attributes) == GetSessionData(attributes)
  {
    BookingExtensional(MergeData(intent, attributes), GetSessionData(attributes));
  }

  /** A merged field is known exactly when it was spoken now or stored before. */
  lemma MergeTruthy(intent: Intent, attributes: Attributes, f: Field)
    ensures Truthy(MergeData(intent, attributes).Get(f)) <==>
      Truthy(GetSlotData(intent).Get(f)) || Truthy(GetSessionData(attributes).Get(f))
  {
  }

  // ---------------------------------------------------------------------
  // set_session_data
  // ---------------------------------------------------------------------

  /** `attributes.update({name: value})` as a value: name maps to value, all else kept. */
  function Updated(attributes: Attributes, name: string, value: Value): (r: Attributes)
    ensures name in r && r[name] == value
    ensures r.Keys == attributes.Keys + {name}
    ensures forall k :: k in attributes && k != name ==> r[k] == attributes[k]
  {
    attributes[name := value]
  }

  /** The session of one conversation turn; its attribute dictionary is updated in place. */
  class Session {
    var attributes: Attributes

    constructor (attributes: Attributes)
      ensures this.attributes == attributes
    {
      this.attributes := attributes;
    }
  }

  /** set_session_data: store value (possibly None) under name in the session. */
  method SetSessionData(session: Session, name: string, value: Value)
    modifies session
    ensures session.attributes == Updated(old(session.attributes), name, value)
  {
    session.attributes := session.attributes[name := value];
  }

  /** Storing a field's merged value under its session key leaves the merge unchanged. */
  lemma MergeStableUnderStore(intent: Intent, attributes: Attributes, f: Field)
    ensures MergeData(intent, Updated(attributes, SessionKey(f), MergeData(intent, attributes).Get(f)))
         == MergeData(intent, attributes)
  {
    var m := MergeData(intent, attributes);
    var after := Updated(attributes, SessionKey(f), m.Get(f));
    var m' := MergeData(intent, after);
    forall g ensures m'.Get(g) == m.Get(g) {
      if g != f {
        assert SessionKey(g) != SessionKey(f);
        assert GetSessionData(after).Get(g) == GetSessionData(attributes).Get(g);
      }
    }
    BookingExtensional(m', m);
  }

  /** Storing under a key that is not one of the four session keys leaves the merge unchanged. */
  lemma MergeIgnoresOtherKeys(intent: Intent, attributes: Attributes, name: string, value: Value)
    requires forall f :: name != SessionKey(f)
    ensures MergeData(intent, Updated(attributes, name, value)) == MergeData(intent, attributes)
  {
    var after := Updated(attributes, name, value);
    forall g ensures GetSessionData(after).Get(g) == GetSessionData(attributes).Get(g) {
      assert name != SessionKey(g);
    }
    BookingExtensional(MergeData(intent, after), MergeData(intent, attributes));
  }

  // ---------------------------------------------------------------------
  // camel_to_snake
  // ---------------------------------------------------------------------

  predicate IsUpper(c: char) {
    'A' <= c <= 'Z'
  }

  /** ASCII lower-casing of one character. */
  function ToLower(c: char): char {
    if IsUpper(c) then (c as int + 32) as char else c
  }

  /** `s.lower()` on ASCII letters. */
  function Lower(s: string): string {
    seq(|s|, i requires 0 <= i < |s| => ToLower(s[i]))
  }

  /** `re.sub("([A-Z])", "_\\1", s)`: an underscore before every upper-case letter. */
  function Underscored(s: string): (r: string)
    ensures |r| >= |s|
  {
    if s == [] then []
    else (if IsUpper(s[0]) then ['_', s[0]] else [s[0]]) + Underscored(s[1..])
  }

  /** `s.lstrip(c)`: s without its leading run of c. */
  function LStrip(s: string, c: char): string {
    if s != [] && s[0] == c then LStrip(s[1..], c) else s
  }

  /** lstrip leaves a suffix of s that does not start with c, and removes only c. */
  lemma {:induction false} LStripSuffix(s: string, c: char)
    ensures |LStrip(s, c)| <= |s| && LStrip(s, c) == s[|s| - |LStrip(s, c)|..]
    ensures forall i :: 0 <= i < |s| - |LStrip(s, c)| ==> s[i] == c
    ensures LStrip(s, c) == [] || LStrip(s, c)[0] != c
  {
    if s != [] && s[0] == c {
      var t := s[1..];
      LStripSuffix(t, c);
      var r := LStrip(t, c);
      assert LStrip(s, c) == r;
      assert s[|s| - |r|..] == t[|t| - |r|..];
      forall i | 0 <= i < |s| - |r|
        ensures s[i] == c
      {
        if i > 0 {
          assert s[i] == t[i - 1];
        }
      }
    }
  }

  /** camel_to_snake: "UpperCamelCase" becomes "upper_camel_case". */
  function CamelToSnake(s: string): (r: string)
    ensures forall i :: 0 <= i < |r| ==> !IsUpper(r[i])
    ensures r == [] || r[0] != '_'
  {
    LStripSuffix(Lower(Underscored(s)), '_');
    LStrip(Lower(Underscored(s)), '_')
  }

  /** s with every underscore removed. */
  function WithoutUnderscores(s: string): string {
    if s == [] then []
    else (if s[0] == '_' then [] else [s[0]]) + WithoutUnderscores(s[1..])
  }

  lemma {:induction false} WithoutUnderscoresConcat(a: string, b: string)
    ensures WithoutUnderscores(a + b) == WithoutUnderscores(a) + WithoutUnderscores(b)
  {
    if a == [] {
      assert a + b == b;
    } else {
      var head := if a[0] == '_' then [] else [a[0]];
      assert (a + b)[0] == a[0] && (a + b)[1..] == a[1..] + b;
      WithoutUnderscoresConcat(a[1..], b);
      assert WithoutUnderscores(a + b) == head + (WithoutUnderscores(a[1..]) + WithoutUnderscores(b));
      assert head + (WithoutUnderscores(a[1..]) + WithoutUnderscores(b))
          == (head + WithoutUnderscores(a[1..])) + WithoutUnderscores(b);
    }
  }

  lemma {:induction false} WithoutUnderscoresLStrip(s: string)
    ensures WithoutUnderscores(LStrip(s, '_')) == WithoutUnderscores(s)
  {
    if s != [] && s[0] == '_' {
      WithoutUnderscoresLStrip(s[1..]);
    }
  }

  lemma LowerConcat(a: string, b: string)
    ensures Lower(a + b) == Lower(a) + Lower(b)
  {
    assert forall i :: 0 <= i < |a + b| ==> Lower(a + b)[i] == (Lower(a) + Lower(b))[i];
  }

  lemma {:induction false} WithoutUnderscoresUnderscored(s: string)
    ensures WithoutUnderscores(Lower(Underscored(s))) == WithoutUnderscores(Lower(s))
  {
    if s != [] {
      var head := if IsUpper(s[0]) then ['_', s[0]] else [s[0]];
      assert Underscored(s) == head + Underscored(s[1..]);
      LowerConcat(head, Underscored(s[1..]));
      WithoutUnderscoresConcat(Lower(head), Lower(Underscored(s[1..])));
      assert s == [s[0]] + s[1..];
      LowerConcat([s[0]], s[1..]);
      WithoutUnderscoresConcat(Lower([s[0]]), Lower(s[1..]));
      WithoutUnderscoresUnderscored(s[1..]);
      if IsUpper(s[0]) {
        assert WithoutUnderscores(Lower(head)) == WithoutUnderscores(Lower([s[0]]));
      }
    }
  }

  /**
   * camel_to_snake changes nothing but underscores and letter case: with the
   * underscores removed, its result is the lower-cased input.
   */
  lemma CamelToSnakeOnlyAddsUnderscores(s: string)
    ensures WithoutUnderscores(CamelToSnake(s)) == WithoutUnderscores(Lower(s))
  {
    WithoutUnderscoresLStrip(Lower(Underscored(s)));
    WithoutUnderscoresUnderscored(s);
  }

  lemma {:induction false} UnderscoredConcat(a: string, b: string)
    ensures Underscored(a + b) == Underscored(a) + Underscored(b)
  {
    if a == [] {
      assert a + b == b;
    } else {
      var head := if IsUpper(a[0]) then ['_', a[0]] else [a[0]];
      assert (a + b)[0] == a[0] && (a + b)[1..] == a[1..] + b;
      UnderscoredConcat(a[1..], b);
      assert Underscored(a + b) == head + (Underscored(a[1..]) + Underscored(b));
      assert head + (Underscored(a[1..]) + Underscored(b)) == (head + Underscored(a[1..])) + Underscored(b);
    }
  }

  lemma {:induction false} UnderscoredWithoutUpper(s: string)
    requires forall i :: 0 <= i < |s| ==> !IsUpper(s[i])
    ensures Underscored(s) == s
  {
    if s != [] {
      UnderscoredWithoutUpper(s[1..]);
      assert s == [s[0]] + s[1..];
    }
  }

  /** A word of an UpperCamelCase name: one capital, then no capital and no underscore. */
  predicate Capitalised(w: string) {
    |w| > 0 && IsUpper(w[0]) && forall i :: 1 <= i < |w| ==> !IsUpper(w[i]) && w[i] != '_'
  }

  lemma CapitalisedWord(w: string)
    requires Capitalised(w)
    ensures Underscored(w) == ['_'] + w
  {
    assert w == [w[0]] + w[1..];
    UnderscoredWithoutUpper(w[1..]);
  }

  /**
   * camel_to_snake of a name that starts with a capitalised word: that word
   * lower-cased, then the rest with underscores inserted and lower-cased.
   */
  /** A leading underscore before a string that does not start with one is all lstrip removes. */
  lemma LStripOneUnderscore(t: string)
    requires t == [] || t[0] != '_'
    ensures LStrip(['_'] + t, '_') == t
  {
    assert (['_'] + t)[1..] == t;
  }

  /** Underscoring and lowering a name whose first word is capitalised. */
  lemma LoweredUnderscoredLeadingWord(w: string, rest: string)
    requires Capitalised(w)
    ensures Lower(Underscored(w + rest)) == ['_'] + (Lower(w) + Lower(Underscored(rest)))
  {
    UnderscoredConcat(w, rest);
    CapitalisedWord(w);
    assert Underscored(w + rest) == ['_'] + (w + Underscored(rest));
    LowerConcat(['_'], w + Underscored(rest));
    LowerConcat(w, Underscored(rest));
  }

  lemma CamelToSnakeLeadingWord(w: string, rest: string)
    requires Capitalised(w)
    ensures CamelToSnake(w + rest) == Lower(w) + Lower(Underscored(rest))
  {
    var tail := Lower(w) + Lower(Underscored(rest));
    LoweredUnderscoredLeadingWord(w, rest);
    assert tail[0] == Lower(w)[0] == ToLower(w[0]);
    LStripOneUnderscore(tail);
  }

  /** camel_to_snake of a two-word UpperCamelCase name. */
  lemma CamelToSnakeOfTwoWords(a: string, b: string)
    requires Capitalised(a) && Capitalised(b)
    ensures CamelToSnake(a + b) == Lower(a) + "_" + Lower(b)
  {
    CamelToSnakeLeadingWord(a, b);
    CapitalisedWord(b);
    LowerConcat("_", b);
  }

  /** camel_to_snake of a three-word UpperCamelCase name. */
  lemma CamelToSnakeOfThreeWords(a: string, b: string, c: string)
    requires Capitalised(a) && Capitalised(b) && Capitalised(c)
    ensures CamelToSnake(a + b + c) == Lower(a) + "_" + Lower(b) + "_" + Lower(c)
  {
    assert a + b + c == a + (b + c);
    CamelToSnakeLeadingWord(a, b + c);
    UnderscoredConcat(b, c);
    CapitalisedWord(b);
    CapitalisedWord(c);
    LowerConcat("_" + b, "_" + c);
    LowerConcat("_", b);
    LowerConcat("_", c);
  }

  /** The documented example: "UpperCamelCase" becomes "upper_camel_case". */
  lemma CamelToSnakeExample(s: string)
    requires s == "UpperCamelCase"
    ensures CamelToSnake(s) == "upper_camel_case"
  {
    var a, b, c := "Upper", "Camel", "Case";
    assert s == a + b + c;
    CamelToSnakeOfThreeWords(a, b, c);
    assert Lower(a) == "upper";
    assert Lower(b) == "camel";
    assert Lower(c) == "case";
  }

  // ---------------------------------------------------------------------
  // Formatters
  // ---------------------------------------------------------------------

  /**
   * The date, duration and time rendering of humanize, isodate and datetime,
   * supplied from outside: only the empty-input guard is modelled here.
   */
  datatype Formatters = Formatters(
    naturalDay: string -> string,
    naturalDelta: string -> string,
    clockTime: string -> string)

  /** format_date: None for None or "", otherwise the rendered date. */
  function FormatDate(fmt: Formatters, date: Value): (r: Value)
    ensures !Truthy(date) <==> r == None
    ensures Truthy(date) ==> r == Some(fmt.naturalDay(date.value))
  {
    if !Truthy(date) then None else Some(fmt.naturalDay(date.value))
  }

  /** format_duration: None for None or "", otherwise the rendered duration. */
  function FormatDuration(fmt: Formatters, duration: Value): (r: Value)
    ensures !Truthy(duration) <==> r == None
    ensures Truthy(duration) ==> r == Some(fmt.naturalDelta(duration.value))
  {
    if !Truthy(duration) then None else Some(fmt.naturalDelta(duration.value))
  }

  /** format_time: None for None or "", otherwise the rendered time of day. */
  function FormatTime(fmt: Formatters, time: Value): (r: Value)
    ensures !Truthy(time) <==> r == None
    ensures Truthy(time) ==> r == Some(fmt.clockTime(time.value))
  {
    if !Truthy(time) then None else Some(fmt.clockTime(time.value))
  }
}
