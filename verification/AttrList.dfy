/** Attribute lists of HLS tags (RFC 8216, section 4.2): the tokenizer ParseAttrList and the quoted
    string reader its callbacks use, which writes into the buffer being scanned. */
module AttrList {
  import opened CText

  datatype Attr = Attr(name: string, value: string)

  // ----- The tokenizer on the text before the NUL ----------------------------------------------

  /** The first character from j on that is not a space. */
  function Spaces(r: string, j: nat): (k: nat)
    requires j <= |r|
    ensures j <= k <= |r|
    decreases |r| - j
  {
    if j < |r| && r[j] == ' ' then Spaces(r, j + 1) else j
  }

  /** Characters that end the search for the equal sign; plain char is taken to be signed. */
  predicate Unprintable(c: char) {
    c < ' ' || c >= 128 as char
  }

  /** The equal sign from j on; |r| if an unprintable character or the end comes first. */
  function Equal(r: string, j: nat): (k: nat)
    requires j <= |r|
    ensures j <= k <= |r| && (k < |r| ==> r[k] == '=')
    decreases |r| - j
  {
    if j == |r| then |r|
    else if r[j] == '=' then j
    else if Unprintable(r[j]) then |r|
    else Equal(r, j + 1)
  }

  /** The end of an attribute, scanning from j: behind the closing quote, at a comma outside quotes,
      or the end. */
  function End(r: string, j: nat, inQuote: bool): (k: nat)
    requires j <= |r|
    ensures j <= k <= |r| && (j < |r| && r[j] != ',' ==> j < k)
    decreases |r| - j
  {
    if j == |r| then j
    else if r[j] == '\"' then if inQuote then j + 1 else End(r, j + 1, true)
    else if r[j] == ',' && !inQuote then j
    else End(r, j + 1, inQuote)
  }

  /** What a callback that wants a string makes of a value: the text between the quotes, or NONE. */
  function StringValue(v: string): string {
    if v != "" && v[0] == '\"' then if |v| >= 2 then v[1..|v| - 1] else "" else "NONE"
  }

  function Value(name: string, v: string, isString: set<string>): string {
    if name in isString then StringValue(v) else v
  }

  /** The callbacks made for the text r, in order; isString names the attributes whose callback reads
      a string. */
  function Calls(r: string, isString: set<string>): seq<Attr>
    decreases |r|
  {
    if r == "" then []
    else
      var a := Spaces(r, 0);
      if a < |r| && r[a] == '\r' then []
      else
        var d := Equal(r, a);
        if d == |r| then []
        else
          var f := End(r, d, false);
          [Attr(r[a..d], Value(r[a..d], r[d + 1..f], isString))] + Calls(r[Next(r, f)..], isString)
  }

  /** A comma between attributes is passed over. */
  function Next(r: string, f: nat): (k: nat)
    requires f <= |r|
    ensures f <= k <= |r|
  {
    if f < |r| && r[f] == ',' then f + 1 else f
  }

  /** The first call made for a text, by the positions the scan finds. */
  lemma {:induction false} CallsFirst(r: string, isString: set<string>, a: nat)
    requires r != "" && a == Spaces(r, 0)
    ensures (a < |r| && r[a] == '\r') || Equal(r, a) == |r| ==> Calls(r, isString) == []
    ensures (a == |r| || r[a] != '\r') && Equal(r, a) < |r| ==>
              var d := Equal(r, a); var f := End(r, d, false); var name := r[a..d];
              Calls(r, isString) == [Attr(name, Value(name, r[d + 1..f], isString))] + Calls(r[Next(r, f)..], isString)
  {
    hide Value, Spaces, Equal, End;
  }

  lemma {:induction false} SpacesAre(r: string, j: nat, a: nat)
    requires j <= a <= |r| && (forall i :: j <= i < a ==> r[i] == ' ') && (a == |r| || r[a] != ' ')
    ensures Spaces(r, j) == a
    decreases a - j
  {
    if j < a {
      SpacesAre(r, j + 1, a);
    }
  }

  /** The first equal sign, unless a control character or one beyond ASCII comes first. */
  lemma {:induction false} EqualIs(r: string, j: nat, e: nat)
    requires j <= e <= |r| && forall i :: j <= i < e ==> r[i] != '=' && ' ' <= r[i] < 128 as char
    requires e == |r| || r[e] == '=' || !(' ' <= r[e] < 128 as char)
    ensures Equal(r, j) == if e < |r| && r[e] == '=' then e else |r|
    decreases e - j
  {
    if j < e {
      EqualIs(r, j + 1, e);
    }
  }

  /** How the calls for a text start: spaces are passed over; what follows up to an equal sign is the first
      name, of printable ASCII characters; and at a carriage return, without an equal sign, or at any other
      character before it, no call is made any more. */
  lemma {:induction false} CallsStart(r: string, isString: set<string>, a: nat, e: nat)
    requires a <= e <= |r| && (forall i :: 0 <= i < a ==> r[i] == ' ') && (a == |r| || r[a] != ' ')
    requires forall i :: a <= i < e ==> r[i] != '=' && ' ' <= r[i] < 128 as char
    requires e == |r| || r[e] == '=' || !(' ' <= r[e] < 128 as char)
    ensures if e < |r| && r[e] == '=' then Calls(r, isString) != [] && Calls(r, isString)[0].name == r[a..e]
            else Calls(r, isString) == []
  {
    hide Value, Spaces, Equal, End, Calls;
    SpacesAre(r, 0, a);
    EqualIs(r, a, e);
    if r != "" {
      CallsFirst(r, isString, a);
    } else {
      CallsOfNothing(isString);
    }
  }

  lemma {:induction false} CallsOfNothing(isString: set<string>)
    ensures Calls("", isString) == []
  {
  }

  // ----- Round trip ----------------------------------------------------------------------------

  predicate NameChar(c: char) {
    'A' <= c <= 'Z' || '0' <= c <= '9' || c == '-'
  }

  /** A quoted string without quotes inside. */
  predicate Quoted(v: string) {
    |v| >= 2 && v[0] == '\"' && v[|v| - 1] == '\"' && forall i :: 0 < i < |v| - 1 ==> v[i] != '\"'
  }

  /** Any other value: no quotes and no commas. */
  predicate Unquoted(v: string) {
    v != "" && forall i :: 0 <= i < |v| ==> v[i] != '\"' && v[i] != ','
  }

  predicate WellFormed(a: Attr) {
    a.name != "" && (forall i :: 0 <= i < |a.name| ==> NameChar(a.name[i])) && (Quoted(a.value) || Unquoted(a.value))
  }

  predicate AllWellFormed(attrs: seq<Attr>) {
    forall i :: 0 <= i < |attrs| ==> WellFormed(attrs[i])
  }

  lemma {:induction false} EachWellFormed(attrs: seq<Attr>)
    requires AllWellFormed(attrs) && attrs != []
    ensures WellFormed(attrs[0]) && AllWellFormed(attrs[1..])
  {
    hide WellFormed;
  }

  /** Names and values joined by equal signs, attributes by commas. */
  function Print(attrs: seq<Attr>): string {
    if attrs == [] then ""
    else attrs[0].name + "=" + attrs[0].value + if |attrs| == 1 then "" else "," + Print(attrs[1..])
  }

  lemma {:induction false} EqualAfterName(r: string, j: nat, n: nat)
    requires j <= n < |r| && r[n] == '=' && forall i :: j <= i < n ==> NameChar(r[i])
    ensures Equal(r, j) == n
    decreases n - j
  {
    if j < n {
      EqualAfterName(r, j + 1, n);
    }
  }

  lemma {:induction false} EndOfUnquoted(r: string, j: nat, e: nat)
    requires j <= e <= |r| && (e < |r| ==> r[e] == ',') && forall i :: j <= i < e ==> r[i] != '\"' && r[i] != ','
    ensures End(r, j, false) == e
    decreases e - j
  {
    if j < e {
      EndOfUnquoted(r, j + 1, e);
    }
  }

  lemma {:induction false} EndOfQuoted(r: string, j: nat, e: nat)
    requires j < e <= |r| && r[e - 1] == '\"' && forall i :: j <= i < e - 1 ==> r[i] != '\"'
    ensures End(r, j, true) == e
    decreases e - j
  {
    if j < e - 1 {
      EndOfQuoted(r, j + 1, e);
    }
  }

  /** One printed attribute, followed by nothing or by a comma. */
  lemma {:induction false} OneAttr(a: Attr, rest: string)
    requires WellFormed(a) && (rest != "" ==> rest[0] == ',')
    ensures var r, d := a.name + "=" + a.value + rest, |a.name|;
            && Spaces(r, 0) == 0 && r[0] != '\r' && Equal(r, 0) == d && r[..d] == a.name
            && End(r, d, false) == d + 1 + |a.value| && r[d + 1..d + 1 + |a.value|] == a.value &&
                 r[d + 1 + |a.value|..] == rest
  {
    var r, d := a.name + "=" + a.value + rest, |a.name|;
    assert forall i :: 0 <= i < d ==> r[i] == a.name[i];
    assert NameChar(r[0]) && r[d] == '=';
    EqualAfterName(r, 0, d);
    var e := d + 1 + |a.value|;
    assert forall i :: d < i < e ==> r[i] == a.value[i - d - 1];
    if Quoted(a.value) {
      assert r[d + 1] == '\"';
      EndOfQuoted(r, d + 2, e);
    } else {
      EndOfUnquoted(r, d, e);
    }
  }

  lemma {:induction false} PrintSplits(attrs: seq<Attr>, f: nat)
    requires attrs != [] && f == |attrs[0].name| + 1 + |attrs[0].value|
    ensures var rest := if |attrs| == 1 then "" else "," + Print(attrs[1..]);
            && Print(attrs) == attrs[0].name + "=" + attrs[0].value + rest
            && (Print(attrs)[f..] == rest ==> Print(attrs)[Next(Print(attrs), f)..] == Print(attrs[1..]))
  {
    var rest, r := if |attrs| == 1 then "" else "," + Print(attrs[1..]), Print(attrs);
    if r[f..] == rest && |attrs| > 1 {
      assert r[f] == rest[0] && r[f + 1..] == rest[1..];
    }
  }

  lemma {:induction false} CallsKnown(r: string, isString: set<string>, d: nat, f: nat, a: Attr, tail: string)
    requires r != "" && Spaces(r, 0) == 0 && r[0] != '\r' && Equal(r, 0) == d < f <= |r| && End(r, d, false) == f
    requires r[..d] == a.name && r[d + 1..f] == a.value && r[Next(r, f)..] == tail
    ensures Calls(r, isString) == [Attr(a.name, Value(a.name, a.value, isString))] + Calls(tail, isString)
  {
    hide Spaces, Equal, End, Next, Value;
    assert r[0..d] == r[..d];
  }

  /** The first attribute of a printed list is the first call made. */
  lemma {:induction false} FirstPrinted(attrs: seq<Attr>, isString: set<string>)
    requires attrs != [] && WellFormed(attrs[0])
    ensures Calls(Print(attrs), isString) ==
            [Attr(attrs[0].name, Value(attrs[0].name, attrs[0].value, isString))] + Calls(Print(attrs[1..]), isString)
  {
    hide Spaces, Equal, End, WellFormed, Print, Next, Value, Calls;
    var d := |attrs[0].name|;
    var f := d + 1 + |attrs[0].value|;
    PrintSplits(attrs, f);
    OneAttr(attrs[0], if |attrs| == 1 then "" else "," + Print(attrs[1..]));
    CallsKnown(Print(attrs), isString, d, f, attrs[0], Print(attrs[1..]));
  }

  /** The call tells the attribute's name and value; a callback that wants a string gets what the quotes
      enclose, and NONE for a value without quotes. */
  predicate Tells(call: Attr, a: Attr, isString: set<string>) {
    && call.name == a.name
    && (a.name !in isString ==> call.value == a.value)
    && (a.name in isString && Quoted(a.value) ==> "\"" + call.value + "\"" == a.value)
    && (a.name in isString && !Quoted(a.value) ==> call.value == "NONE")
  }

  lemma {:induction false} ValueTells(a: Attr, isString: set<string>)
    requires WellFormed(a)
    ensures Tells(Attr(a.name, Value(a.name, a.value, isString)), a, isString)
  {
  }

  /** Round trip: parsing the printed form of any well-formed list calls back once per attribute, in
      order, with its name and its value, commas inside quotes included. */
  lemma {:induction false} PrintedListParses(attrs: seq<Attr>, isString: set<string>)
    requires AllWellFormed(attrs)
    ensures |Calls(Print(attrs), isString)| == |attrs|
    ensures forall i :: 0 <= i < |attrs| ==> Tells(Calls(Print(attrs), isString)[i], attrs[i], isString)
    decreases |attrs|
  {
    hide AllWellFormed, WellFormed, Value, Tells, Print, Calls;
    if attrs == [] {
      PrintNothing(isString);
    } else {
      EachWellFormed(attrs);
      FirstPrinted(attrs, isString);
      ValueTells(attrs[0], isString);
      PrintedListParses(attrs[1..], isString);
    }
  }

  lemma {:induction false} PrintNothing(isString: set<string>)
    ensures Calls(Print([]), isString) == []
  {
  }

  // ----- The tokenizer over the buffer ---------------------------------------------------------

  method SkipSpaces(buf: array<char>, attrName: nat, ghost r: string) returns (p: nat)
    requires Holds(buf, attrName, r)
    ensures p == attrName + Spaces(r, 0)
  {
    p := attrName;
    while buf[p] == ' '
      invariant attrName <= p <= attrName + |r| && Spaces(r, p - attrName) == Spaces(r, 0)
      decreases attrName + |r| - p
    {
      p := p + 1;
    }
  }

  /** The equal sign, unless an unprintable character comes first. */
  method FindEqual(buf: array<char>, attrName: nat, start: nat, ghost r: string) returns (found: bool, delimEqual: nat)
    requires Holds(buf, attrName, r) && attrName <= start <= attrName + |r|
    ensures found <==> Equal(r, start - attrName) < |r|
    ensures found ==> delimEqual == attrName + Equal(r, start - attrName)
  {
    delimEqual := start;
    while buf[delimEqual] != '='
      invariant attrName <= delimEqual <= attrName + |r| &&
                  Equal(r, delimEqual - attrName) == Equal(r, start - attrName)
      decreases attrName + |r| - delimEqual
    {
      var c := buf[delimEqual];
      if Unprintable(c) {
        return false, delimEqual;
      }
      delimEqual := delimEqual + 1;
    }
    found := true;
  }

  method FindEnd(buf: array<char>, attrName: nat, delimEqual: nat, ghost r: string) returns (fin: nat)
    requires Holds(buf, attrName, r) && attrName <= delimEqual <= attrName + |r|
    ensures fin == attrName + End(r, delimEqual - attrName, false)
  {
    fin := delimEqual;
    var inQuote := false;
    while true
      invariant attrName <= fin <= attrName + |r| &&
                  End(r, fin - attrName, inQuote) == End(r, delimEqual - attrName, false)
      decreases attrName + |r| - fin
    {
      var c := buf[fin];
      if c == '\0' {
        break;
      } else if c == '\"' {
        if inQuote {
          inQuote := false;
          fin := fin + 1;
          break;
        } else {
          inQuote := true;
        }
      } else if c == ',' && !inQuote {
        break;
      }
      fin := fin + 1;
    }
  }

  /** The value up to fin as a string: the closing quote is overwritten by a NUL. */
  method GetAttributeValueString(buf: array<char>, valuePtr: nat, fin: nat) returns (rc: string)
    requires valuePtr <= fin < buf.Length && (buf[valuePtr] == '\"' ==> valuePtr < fin)
    modifies buf
    ensures rc == StringValue(old(buf[valuePtr..fin]))
    ensures forall k :: 0 <= k < buf.Length ==>
                        buf[k] == if k == fin - 1 && old(buf[valuePtr]) == '\"' then '\0' else old(buf[k])
  {
    if buf[valuePtr] == '\"' {
      rc := if valuePtr + 1 < fin then buf[valuePtr + 1..fin - 1] else "";
      buf[fin - 1] := '\0';
    } else {
      rc := "NONE";
    }
  }

  /** The callback for one attribute. */
  method Callback(buf: array<char>, attrName: nat, delim: nat, fin: nat, isString: set<string>) returns (attr: Attr)
    requires attrName <= delim < fin < buf.Length && (fin == delim + 1 ==> buf[fin] != '\"')
    modifies buf
    ensures attr == Attr(old(buf[attrName..delim]),
                         Value(old(buf[attrName..delim]), old(buf[delim + 1..fin]), isString))
    ensures forall k :: 0 <= k < buf.Length && !(delim < k < fin) ==> buf[k] == old(buf[k])
  {
    var name, value := buf[attrName..delim], buf[delim + 1..fin];
    if name in isString {
      value := GetAttributeValueString(buf, delim + 1, fin);
    }
    attr := Attr(name, value);
  }

  /** The positions of the attribute the text r at p begins with, if it begins with one. */
  method Locate(buf: array<char>, p: nat, ghost r: string)
    returns (found: bool, attrName: nat, delimEqual: nat, fin: nat)
    requires Holds(buf, p, r) && r != ""
    ensures attrName == p + Spaces(r, 0)
    ensures found <==> !(Spaces(r, 0) < |r| && r[Spaces(r, 0)] == '\r') && Equal(r, Spaces(r, 0)) < |r|
    ensures found ==>
              && delimEqual == p + Equal(r, Spaces(r, 0)) && fin == p + End(r, delimEqual - p, false)
              && attrName <= delimEqual < fin <= p + |r| < buf.Length && (fin == delimEqual + 1 ==> buf[fin] != '\"')
  {
    hide Spaces, Equal, End, Holds;
    found, delimEqual, fin := false, p, p;
    attrName := SkipSpaces(buf, p, r);
    HoldsChar(buf, p, r, attrName - p);
    if buf[attrName] == '\r' {
      return;
    }
    found, delimEqual := FindEqual(buf, p, attrName, r);
    if !found {
      return;
    }
    fin := FindEnd(buf, p, delimEqual, r);
    EndStops(r, delimEqual - p);
    HoldsChar(buf, p, r, fin - p);
  }

  /** One attribute of the text r at p, if there is one: what is scanned next is as it was, whatever
      the callback wrote before it. */
  method ParseOne(buf: array<char>, p: nat, ghost r: string, isString: set<string>)
    returns (more: bool, call: Attr, fin: nat)
    requires Holds(buf, p, r) && r != ""
    modifies buf
    ensures p < fin <= p + |r| && forall k :: 0 <= k < buf.Length && !(p <= k < fin) ==> buf[k] == old(buf[k])
    ensures if more then Calls(r, isString) == [call] + Calls(r[fin - p..], isString) else Calls(r, isString) == []
  {
    hide Spaces, Equal, End, Value, Holds, Calls;
    var attrName, delimEqual;
    call := Attr("", "");
    CallsFirst(r, isString, Spaces(r, 0));
    more, attrName, delimEqual, fin := Locate(buf, p, r);
    if !more {
      fin := p + 1;
      return;
    }
    HoldsSlice(buf, p, r, attrName - p, delimEqual - p);
    HoldsSlice(buf, p, r, delimEqual + 1 - p, fin - p);
    HoldsChar(buf, p, r, fin - p);
    call := Callback(buf, attrName, delimEqual, fin, isString);
    if buf[fin] == ',' {
      fin := fin + 1;
    }
  }

  /** ParseAttrList: the callbacks made for the NUL-terminated text at attrName0. The scan ends on every
      such text. */
  method ParseAttrList(buf: array<char>, attrName0: nat, ghost text: string, isString: set<string>)
    returns (calls: seq<Attr>)
    requires Holds(buf, attrName0, text)
    modifies buf
    ensures calls == Calls(text, isString)
    ensures forall k :: 0 <= k < buf.Length && !(attrName0 <= k < attrName0 + |text|) ==> buf[k] == old(buf[k])
  {
    var attrName := attrName0;
    ghost var r := text;
    calls := [];
    HoldsStart(buf, attrName, r);
    assert Calls("", isString) == [] && attrName + |r| < buf.Length;
    hide Calls, HoldsIn;
    while buf[attrName] != '\0'
      invariant attrName0 <= attrName && attrName + |r| == attrName0 + |text| < buf.Length
      invariant Holds(buf, attrName, r) && (buf[attrName] == '\0' <==> r == "")
      invariant calls + Calls(r, isString) == Calls(text, isString)
      invariant forall k :: 0 <= k < buf.Length && !(attrName0 <= k < attrName0 + |text|) ==> buf[k] == old(buf[k])
      decreases |r|
    {
      ghost var before := buf[..];
      var more, call, fin := ParseOne(buf, attrName, r, isString);
      if !more {
        return;
      }
      calls := calls + [call];
      HoldsRest(before, buf[..], attrName, r, fin);
      r, attrName := r[fin - attrName..], fin;
      HoldsStart(buf, attrName, r);
    }
  }

  lemma {:induction false} EndStops(r: string, d: nat)
    requires d < |r| && r[d] == '='
    ensures End(r, d, false) == d + 1 ==> d + 1 == |r| || r[d + 1] == ','
  {
  }
}
