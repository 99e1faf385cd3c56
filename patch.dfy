/**
 * The patch builder (constructPatch): one JSON-Patch "replace" operation
 * (section 4.3 of RFC 6902) on the path "/spec/tolerations"
 * (RFC 6901), written byte for byte as the webhook writes it, and a reader
 * for exactly that document.
 */
module Patch {
  import opened Wrappers
  import opened Tolerations
  import opened JsonString

  /** Everything of the patch document before the tolerations array. */
  const PatchPrefix: string := "[{\"op\":\"replace\",\"path\":\"/spec/tolerations\",\"value\":"

  /** Everything of the patch document after the tolerations array. */
  const PatchSuffix: string := "}]"

  /** What introduces the key member. */
  const KeyField: string := "\"key\":"

  /** What introduces the operator member. */
  const OperatorField: string := "\"operator\":"

  /** The key member and its trailing comma; nothing when the key is unset. */
  function KeyMember(key: string): string {
    if key == "" then "" else KeyField + Quote(key) + ","
  }

  /** The operator member, always present. */
  function OperatorMember(op: Operator): string {
    OperatorField + Quote(OperatorName(op))
  }

  /** What introduces the value member. */
  const ValueLead: string := ",\"value\":"

  /** The value member with its leading comma; nothing when the value is unset. */
  function ValueMember(value: string): string {
    if value == "" then "" else ValueLead + Quote(value)
  }

  /** What introduces the effect member. */
  const EffectLead: string := ",\"effect\":"

  /** The effect member with its leading comma; nothing when the effect is unset. */
  function EffectMember(effect: Option<Effect>): string {
    match effect
    case None => ""
    case Some(e) => EffectLead + Quote(EffectName(e))
  }

  /**
   * One toleration as a JSON object: members in the order key, operator,
   * value, effect; the key, the value and the effect left out when unset.
   */
  function EncodeToleration(t: Toleration): (r: string)
    ensures |r| >= 2 && r[0] == '{' && r[|r| - 1] == '}'
  {
    "{" + KeyMember(t.key) + OperatorMember(t.operator) + ValueMember(t.value) + EffectMember(t.effect) + "}"
  }

  /** The elements after the first one, each preceded by a comma. */
  function EncodeMore(ts: seq<Toleration>): string {
    if ts == [] then "" else "," + EncodeToleration(ts[0]) + EncodeMore(ts[1..])
  }

  /** A JSON array of tolerations in the given order. */
  function EncodeArray(ts: seq<Toleration>): string {
    if ts == [] then "[]" else "[" + EncodeToleration(ts[0]) + EncodeMore(ts[1..]) + "]"
  }

  /**
   * constructPatch: the patch document that replaces the pod's tolerations
   * with `ts` (PatchRoundTrip: reading it back gives `ts` in the same order).
   */
  function ConstructPatch(ts: seq<Toleration>): (r: string)
    ensures HasPrefix(r, PatchPrefix)
    ensures |r| >= |PatchPrefix| + |PatchSuffix| && r[|r| - |PatchSuffix|..] == PatchSuffix
  {
    Enclosed(PatchPrefix, EncodeArray(ts), PatchSuffix);
    PatchPrefix + EncodeArray(ts) + PatchSuffix
  }

  /** A text put between `p` and `q` starts with `p` and ends with `q`. */
  lemma {:induction false} Enclosed(p: string, m: string, q: string)
    ensures HasPrefix(p + m + q, p)
    ensures |p + m + q| >= |p| + |q| && (p + m + q)[|p + m + q| - |q|..] == q
  {
    assert (p + m + q)[..|p|] == p;
  }

  // ---- Reading the patch back ----

  /** Whether `s` starts with `lit`. */
  predicate HasPrefix(s: string, lit: string) {
    |lit| <= |s| && s[..|lit|] == lit
  }

  /** Consumes the literal `lit` at the start of `s`. */
  function Expect(lit: string, s: string): (r: Option<string>)
    ensures r.Some? <==> HasPrefix(s, lit)
    ensures r.Some? ==> |r.value| == |s| - |lit|
  {
    if HasPrefix(s, lit) then Some(s[|lit|..]) else None
  }

  /** Reads the key member, if there is one; an absent key reads as "". */
  function ParseKey(s: string): (r: Option<(string, string)>)
    ensures r.Some? ==> |r.value.1| <= |s|
  {
    match Expect(KeyField, s)
    case None => Some(("", s))
    case Some(s1) =>
      var (k, s2) :- ReadString(s1);
      var s3 :- Expect(",", s2);
      Some((k, s3))
  }

  /** Reads the operator member. */
  function ParseOperatorMember(s: string): (r: Option<(Operator, string)>)
    ensures r.Some? ==> |r.value.1| < |s|
  {
    var s1 :- Expect(OperatorField, s);
    var (name, s2) :- ReadString(s1);
    var op :- ParseOperator(name);
    Some((op, s2))
  }

  /** Reads the value member, if there is one; an absent value reads as "". */
  function ParseValue(s: string): (r: Option<(string, string)>)
    ensures r.Some? ==> |r.value.1| <= |s|
  {
    match Expect(ValueLead, s)
    case None => Some(("", s))
    case Some(s1) => ReadString(s1)
  }

  /** Reads the effect member, if there is one. */
  function ParseEffectMember(s: string): (r: Option<(Option<Effect>, string)>)
    ensures r.Some? ==> |r.value.1| <= |s|
  {
    match Expect(EffectLead, s)
    case None => Some((None, s))
    case Some(s1) =>
      var (name, s2) :- ReadString(s1);
      var e :- ParseEffect(name);
      Some((Some(e), s2))
  }

  /** Reads one toleration object. */
  function ParseToleration(s: string): (r: Option<(Toleration, string)>)
    ensures r.Some? ==> |r.value.1| < |s|
  {
    var s1 :- Expect("{", s);
    var (key, s2) :- ParseKey(s1);
    var (op, s3) :- ParseOperatorMember(s2);
    var (value, s4) :- ParseValue(s3);
    var (effect, s5) :- ParseEffectMember(s4);
    var rest :- Expect("}", s5);
    Some((Toleration(key, op, value, effect), rest))
  }

  /** Reads the elements after the first one and the closing bracket. */
  function ParseMore(s: string): (r: Option<(seq<Toleration>, string)>)
    ensures r.Some? ==> |r.value.1| < |s|
    decreases |s|
  {
    if HasPrefix(s, "]") then Some(([], s[1..]))
    else
      var s1 :- Expect(",", s);
      var (t, s2) :- ParseToleration(s1);
      var (ts, rest) :- ParseMore(s2);
      Some(([t] + ts, rest))
  }

  /** Reads a JSON array of tolerations. */
  function ParseArray(s: string): (r: Option<(seq<Toleration>, string)>)
    ensures r.Some? ==> |r.value.1| < |s|
  {
    var s1 :- Expect("[", s);
    if HasPrefix(s1, "]") then Some(([], s1[1..]))
    else
      var (t, s2) :- ParseToleration(s1);
      var (ts, rest) :- ParseMore(s2);
      Some(([t] + ts, rest))
  }

  /** Reads a whole patch document: the single replace operation and its value. */
  function ParsePatch(s: string): Option<seq<Toleration>> {
    var s1 :- Expect(PatchPrefix, s);
    var (ts, s2) :- ParseArray(s1);
    var rest :- Expect(PatchSuffix, s2);
    if rest == [] then Some(ts) else None
  }

  // ---- Round trip ----

  /** Consuming a literal that is there leaves exactly what follows it. */
  lemma {:induction false} ExpectLiteral(lit: string, rest: string)
    ensures HasPrefix(lit + rest, lit)
    ensures Expect(lit, lit + rest) == Some(rest)
  {
    assert (lit + rest)[..|lit|] == lit;
    assert (lit + rest)[|lit|..] == rest;
  }

  /** Concatenation is associative (stated once so that proofs regroup by instantiation). */
  lemma {:induction false} Assoc(a: string, b: string, c: string)
    ensures a + b + c == a + (b + c)
  {
  }

  /** Regrouping the pieces of an encoded object followed by more text. */
  lemma {:induction false} RegroupObject(a: string, b: string, c: string, d: string, e: string, f: string, rest: string)
    ensures a + b + c + d + e + f + rest == a + (b + (c + (d + (e + (f + rest)))))
  {
  }

  /** Regrouping a comma-led element, the elements after it and more text. */
  lemma {:induction false} RegroupElement(a: string, b: string, c: string, d: string)
    ensures a + b + c + d == a + (b + (c + d))
  {
  }

  /** Regrouping an encoded array followed by more text. */
  lemma {:induction false} RegroupArray(a: string, b: string, c: string, d: string, rest: string)
    ensures a + b + c + d + rest == a + (b + (c + (d + rest)))
  {
  }

  /**
   * The key member is written exactly when the key is non-empty, and reads
   * back as the key, provided the operator member follows.
   */
  lemma {:induction false} ParseKeyRoundTrip(key: string, rest: string)
    requires HasPrefix(rest, OperatorField)
    ensures key != "" <==> HasPrefix(KeyMember(key) + rest, KeyField)
    ensures ParseKey(KeyMember(key) + rest) == Some((key, rest))
  {
    var s := KeyMember(key) + rest;
    if key == "" {
      assert s == rest;
      assert Expect(KeyField, s) == None by {
        DiffersAt(s, KeyField, 1);
      }
    } else {
      var after := Quote(key) + ("," + rest);
      assert Expect(KeyField, s) == Some(after) by {
        Assoc(KeyField, Quote(key), ",");
        Assoc(KeyField + Quote(key), ",", rest);
        Assoc(KeyField, Quote(key), "," + rest);
        ExpectLiteral(KeyField, after);
      }
      assert ReadString(after) == Some((key, "," + rest)) by {
        QuoteRoundTrip(key, "," + rest);
      }
      assert Expect(",", "," + rest) == Some(rest) by {
        ExpectLiteral(",", rest);
      }
    }
  }

  /** The operator member reads back as the operator. */
  lemma {:induction false} ParseOperatorRoundTrip(op: Operator, rest: string)
    ensures ParseOperatorMember(OperatorMember(op) + rest) == Some((op, rest))
  {
    var s := OperatorMember(op) + rest;
    var after := Quote(OperatorName(op)) + rest;
    assert Expect(OperatorField, s) == Some(after) by {
      Assoc(OperatorField, Quote(OperatorName(op)), rest);
      ExpectLiteral(OperatorField, after);
    }
    assert ReadString(after) == Some((OperatorName(op), rest)) by {
      QuoteRoundTrip(OperatorName(op), rest);
    }
    assert ParseOperator(OperatorName(op)) == Some(op);
  }

  /**
   * The value member is written exactly when the value is non-empty, and
   * reads back as the value, provided no other value member follows.
   */
  lemma {:induction false} ParseValueRoundTrip(value: string, rest: string)
    requires !HasPrefix(rest, ValueLead)
    ensures value != "" <==> HasPrefix(ValueMember(value) + rest, ValueLead)
    ensures ParseValue(ValueMember(value) + rest) == Some((value, rest))
  {
    var s := ValueMember(value) + rest;
    if value == "" {
      assert s == rest;
    } else {
      var after := Quote(value) + rest;
      assert Expect(ValueLead, s) == Some(after) by {
        Assoc(ValueLead, Quote(value), rest);
        ExpectLiteral(ValueLead, after);
      }
      assert ReadString(after) == Some((value, rest)) by {
        QuoteRoundTrip(value, rest);
      }
    }
  }

  /**
   * The effect member is written exactly when the effect is set, and reads
   * back as the effect, provided no other effect member follows.
   */
  lemma {:induction false} ParseEffectRoundTrip(effect: Option<Effect>, rest: string)
    requires !HasPrefix(rest, EffectLead)
    ensures effect.Some? <==> HasPrefix(EffectMember(effect) + rest, EffectLead)
    ensures ParseEffectMember(EffectMember(effect) + rest) == Some((effect, rest))
  {
    var s := EffectMember(effect) + rest;
    match effect {
      case None =>
        assert s == rest;
      case Some(e) =>
        var after := Quote(EffectName(e)) + rest;
        assert Expect(EffectLead, s) == Some(after) by {
          Assoc(EffectLead, Quote(EffectName(e)), rest);
          ExpectLiteral(EffectLead, after);
        }
        assert ReadString(after) == Some((EffectName(e), rest)) by {
          QuoteRoundTrip(EffectName(e), rest);
        }
        assert ParseEffect(EffectName(e)) == Some(e);
    }
  }

  /** A text that differs from `lit` at position `i` does not start with `lit`. */
  lemma {:induction false} DiffersAt(s: string, lit: string, i: nat)
    requires i < |lit| && i < |s| && s[i] != lit[i]
    ensures !HasPrefix(s, lit)
    ensures Expect(lit, s) == None
  {
  }

  /** What can follow the value member never starts another value member. */
  lemma {:induction false} NoValueLeadAfterValue(effect: Option<Effect>, rest: string)
    ensures !HasPrefix(EffectMember(effect) + ("}" + rest), ValueLead)
  {
    var s := EffectMember(effect) + ("}" + rest);
    match effect {
      case None =>
        assert s == "}" + rest;
        DiffersAt(s, ValueLead, 0);
      case Some(e) =>
        Assoc(EffectLead, Quote(EffectName(e)), "}" + rest);
        DiffersAt(s, ValueLead, 2);
    }
  }

  /** The operator member starts with its member name. */
  lemma {:induction false} OperatorMemberFirst(op: Operator, rest: string)
    ensures HasPrefix(OperatorMember(op) + rest, OperatorField)
  {
    var tail := Quote(OperatorName(op)) + rest;
    Assoc(OperatorField, Quote(OperatorName(op)), rest);
    ExpectLiteral(OperatorField, tail);
  }

  /** An encoded toleration opens with a brace. */
  lemma ObjectOpens(t: Toleration, rest: string)
    ensures |EncodeToleration(t) + rest| > 0 && (EncodeToleration(t) + rest)[0] == '{'
  {
  }

  /** One encoded toleration reads back as itself. */
  lemma {:induction false} ParseTolerationRoundTrip(t: Toleration, rest: string)
    ensures ParseToleration(EncodeToleration(t) + rest) == Some((t, rest))
  {
    hide ParseKey, ParseOperatorMember, ParseValue, ParseEffectMember, KeyMember, OperatorMember, ValueMember, EffectMember;
    var s5 := "}" + rest;
    var s4 := EffectMember(t.effect) + s5;
    var s3 := ValueMember(t.value) + s4;
    var s2 := OperatorMember(t.operator) + s3;
    var s1 := KeyMember(t.key) + s2;
    assert Expect("{", EncodeToleration(t) + rest) == Some(s1) by {
      RegroupObject("{", KeyMember(t.key), OperatorMember(t.operator), ValueMember(t.value), EffectMember(t.effect), "}", rest);
      ExpectLiteral("{", s1);
    }
    assert ParseKey(s1) == Some((t.key, s2)) by {
      OperatorMemberFirst(t.operator, s3);
      ParseKeyRoundTrip(t.key, s2);
    }
    assert ParseOperatorMember(s2) == Some((t.operator, s3)) by {
      ParseOperatorRoundTrip(t.operator, s3);
    }
    assert ParseValue(s3) == Some((t.value, s4)) by {
      NoValueLeadAfterValue(t.effect, rest);
      ParseValueRoundTrip(t.value, s4);
    }
    assert ParseEffectMember(s4) == Some((t.effect, s5)) by {
      DiffersAt(s5, EffectLead, 0);
      ParseEffectRoundTrip(t.effect, s5);
    }
    assert Expect("}", s5) == Some(rest) by {
      ExpectLiteral("}", rest);
    }
  }

  /** The comma-led elements and the closing bracket read back as the list. */
  lemma {:induction false} ParseMoreRoundTrip(ts: seq<Toleration>, rest: string)
    ensures ParseMore(EncodeMore(ts) + ("]" + rest)) == Some((ts, rest))
  {
    hide ParseToleration, EncodeToleration;
    var s := EncodeMore(ts) + ("]" + rest);
    if ts == [] {
      assert s == "]" + rest;
      ExpectLiteral("]", rest);
    } else {
      var tail := EncodeMore(ts[1..]) + ("]" + rest);
      assert !HasPrefix(s, "]") && Expect(",", s) == Some(EncodeToleration(ts[0]) + tail) by {
        RegroupElement(",", EncodeToleration(ts[0]), EncodeMore(ts[1..]), "]" + rest);
        DiffersAt(s, "]", 0);
        ExpectLiteral(",", EncodeToleration(ts[0]) + tail);
      }
      assert ParseToleration(EncodeToleration(ts[0]) + tail) == Some((ts[0], tail)) by {
        ParseTolerationRoundTrip(ts[0], tail);
      }
      assert ParseMore(tail) == Some((ts[1..], rest)) by {
        ParseMoreRoundTrip(ts[1..], rest);
      }
      assert [ts[0]] + ts[1..] == ts;
    }
  }

  /** An encoded array reads back as the list, leaving what follows it. */
  lemma {:induction false} ParseArrayRoundTrip(ts: seq<Toleration>, rest: string)
    ensures ParseArray(EncodeArray(ts) + rest) == Some((ts, rest))
  {
    hide ParseToleration, ParseMore, EncodeToleration, EncodeMore;
    var s := EncodeArray(ts) + rest;
    if ts == [] {
      assert Expect("[", s) == Some("]" + rest) by {
        assert EncodeArray(ts) == "[" + "]";
        Assoc("[", "]", rest);
        ExpectLiteral("[", "]" + rest);
      }
      ExpectLiteral("]", rest);
    } else {
      var tail := EncodeMore(ts[1..]) + ("]" + rest);
      var body := EncodeToleration(ts[0]) + tail;
      assert Expect("[", s) == Some(body) by {
        RegroupArray("[", EncodeToleration(ts[0]), EncodeMore(ts[1..]), "]", rest);
        ExpectLiteral("[", body);
      }
      assert !HasPrefix(body, "]") by {
        ObjectOpens(ts[0], tail);
        DiffersAt(body, "]", 0);
      }
      assert ParseToleration(body) == Some((ts[0], tail)) by {
        ParseTolerationRoundTrip(ts[0], tail);
      }
      assert ParseMore(tail) == Some((ts[1..], rest)) by {
        ParseMoreRoundTrip(ts[1..], rest);
      }
      assert [ts[0]] + ts[1..] == ts;
    }
  }

  /** The patch document reads back as exactly the tolerations it was built from. */
  lemma {:induction false} PatchRoundTrip(ts: seq<Toleration>)
    ensures ParsePatch(ConstructPatch(ts)) == Some(ts)
  {
    hide ParseArray, EncodeArray;
    var r := ConstructPatch(ts);
    assert Expect(PatchPrefix, r) == Some(EncodeArray(ts) + PatchSuffix) by {
      Assoc(PatchPrefix, EncodeArray(ts), PatchSuffix);
      ExpectLiteral(PatchPrefix, EncodeArray(ts) + PatchSuffix);
    }
    assert ParseArray(EncodeArray(ts) + PatchSuffix) == Some((ts, PatchSuffix)) by {
      ParseArrayRoundTrip(ts, PatchSuffix);
    }
    assert Expect(PatchSuffix, PatchSuffix) == Some([]) by {
      ExpectLiteral(PatchSuffix, []);
      assert PatchSuffix + [] == PatchSuffix;
    }
  }

  // ---- The documents the tests pin down ----
  //
  // The expected documents below are the tests' bytes split into pieces
  // (the strings a member's text is made of); joined, they are the bytes
  // verbatim. The pieces are grouped as the encoder groups them, so each
  // document is matched against the encoder's output piece by piece rather
  // than character by character. Join, Close and AppendLastMember only
  // regroup concatenations, and each proof hides the definitions it no
  // longer needs.

  /** The toleration of TestConstructPatch and of the pre-existing entry in TestMutatePod. */
  const Key1Equal: Toleration := Toleration("key1", Equal, "value1", None)

  /** A member whose string needs no escaping is its lead, the string and two quotes. */
  lemma {:induction false} PlainMember(lead: string, s: string)
    requires AllUnescaped(s)
    ensures lead + Quote(s) == lead + "\"" + s + "\""
  {
    QuotePlain(s);
  }

  /** The key member of a key that needs no escaping. */
  lemma {:induction false} KeyMemberPlain(key: string)
    requires key != "" && AllUnescaped(key)
    ensures KeyMember(key) == "\"key\":\"" + key + "\","
  {
    PlainMember(KeyField, key);
    assert KeyField + "\"" == "\"key\":\"";
    Assoc("\"key\":\"" + key, "\"", ",");
    assert "\"" + "," == "\",";
  }

  /** Operator names need no escaping. */
  lemma OperatorNamePlain(op: Operator)
    ensures AllUnescaped(OperatorName(op))
  {
  }

  /** Effect names need no escaping. */
  lemma EffectNamePlain(e: Effect)
    ensures AllUnescaped(EffectName(e))
  {
  }

  /** The operator member. */
  lemma {:induction false} OperatorMemberText(op: Operator)
    ensures OperatorMember(op) == "\"operator\":\"" + OperatorName(op) + "\""
  {
    OperatorNamePlain(op);
    hide AllUnescaped, Quote, Escape, OperatorName;
    PlainMember(OperatorField, OperatorName(op));
    assert OperatorField + "\"" == "\"operator\":\"";
  }

  /** The value member of a value that needs no escaping. */
  lemma {:induction false} ValueMemberPlain(value: string)
    requires value != "" && AllUnescaped(value)
    ensures ValueMember(value) == ",\"value\":\"" + value + "\""
  {
    PlainMember(ValueLead, value);
    assert ValueLead + "\"" == ",\"value\":\"";
  }

  /** The effect member of a set effect. */
  lemma {:induction false} EffectMemberText(e: Effect)
    ensures EffectMember(Some(e)) == ",\"effect\":\"" + EffectName(e) + "\""
  {
    EffectNamePlain(e);
    hide AllUnescaped, Quote, Escape, EffectName;
    PlainMember(EffectLead, EffectName(e));
    assert EffectLead + "\"" == ",\"effect\":\"";
  }

  /** Joins a member `(l2 + y) + l3` onto text ending in the literal `l1`. */
  lemma {:induction false} Join(p: string, l1: string, l2: string, y: string, l3: string)
    ensures (p + l1) + ((l2 + y) + l3) == ((p + (l1 + l2)) + y) + l3
  {
    Assoc(p + l1, l2 + y, l3);
    Assoc(p + l1, l2, y);
    Assoc(p, l1, l2);
  }

  /** The opening brace and the key member, joined. */
  lemma {:induction false} OpenWithKey(k: string)
    ensures "{" + ("\"key\":\"" + k + "\",") == "{\"key\":\"" + k + "\","
  {
    Assoc("{", "\"key\":\"" + k, "\",");
    Assoc("{", "\"key\":\"", k);
    assert "{" + "\"key\":\"" == "{\"key\":\"";
  }

  /** The closing quote of the last member and the closing brace, joined. */
  lemma {:induction false} Close(p: string)
    ensures p + "\"" + "" + "}" == p + "\"}"
    ensures p + "\"" + "}" == p + "\"}"
  {
    Assoc(p, "\"", "}");
    assert "\"" + "}" == "\"}";
  }

  /** The opening brace, the key member and the operator member, joined. */
  lemma {:induction false} KeyOperatorText(k: string, op: Operator)
    requires k != "" && AllUnescaped(k)
    ensures "{" + KeyMember(k) + OperatorMember(op)
         == "{\"key\":\"" + k + "\",\"operator\":\"" + OperatorName(op) + "\""
  {
    hide *;
    assert "{" + KeyMember(k) == "{\"key\":\"" + k + "\"," by {
      KeyMemberPlain(k);
      OpenWithKey(k);
    }
    OperatorMemberText(op);
    Join("{\"key\":\"" + k, "\",", "\"operator\":\"", OperatorName(op), "\"");
    assert "\"," + "\"operator\":\"" == "\",\"operator\":\"";
  }

  /** A toleration without an effect is its head members, its value member and the closing brace. */
  lemma EncodeWithoutEffect(t: Toleration)
    requires t.effect.None?
    ensures EncodeToleration(t) == "{" + KeyMember(t.key) + OperatorMember(t.operator) + ValueMember(t.value) + "}"
  {
  }

  /** A toleration without a value is its head members, its effect member and the closing brace. */
  lemma EncodeWithoutValue(t: Toleration)
    requires t.value == ""
    ensures EncodeToleration(t) == "{" + KeyMember(t.key) + OperatorMember(t.operator) + EffectMember(t.effect) + "}"
  {
  }

  /** The last member, `l2 + x` and its closing quote, joined onto text ending in `l1`, then the brace. */
  lemma {:induction false} AppendLastMember(upTo: string, l1: string, l2: string, l12: string, x: string)
    requires l1 + l2 == l12
    ensures upTo + l1 + (l2 + x + "\"") + "}" == upTo + l12 + x + "\"}"
  {
    Join(upTo, l1, l2, x, "\"");
    Close(upTo + l12 + x);
  }

  /** A toleration with a key, an operator and a value but no effect, none needing escapes. */
  lemma {:induction false} EncodeKeyOperatorValue(t: Toleration)
    requires t.key != "" && AllUnescaped(t.key) && t.value != "" && AllUnescaped(t.value) && t.effect.None?
    ensures EncodeToleration(t)
         == "{\"key\":\"" + t.key + "\",\"operator\":\"" + OperatorName(t.operator) + "\",\"value\":\"" + t.value + "\"}"
  {
    hide *;
    var upToOperator := "{\"key\":\"" + t.key + "\",\"operator\":\"" + OperatorName(t.operator);
    EncodeWithoutEffect(t);
    KeyOperatorText(t.key, t.operator);
    ValueMemberPlain(t.value);
    assert "\"" + ",\"value\":\"" == "\",\"value\":\"";
    AppendLastMember(upToOperator, "\"", ",\"value\":\"", "\",\"value\":\"", t.value);
  }

  /** A toleration with a key, an operator and an effect but no value, none needing escapes. */
  lemma {:induction false} EncodeKeyOperatorEffect(t: Toleration)
    requires t.key != "" && AllUnescaped(t.key) && t.value == "" && t.effect.Some?
    ensures EncodeToleration(t)
         == "{\"key\":\"" + t.key + "\",\"operator\":\"" + OperatorName(t.operator) + "\",\"effect\":\"" + EffectName(t.effect.value) + "\"}"
  {
    hide *;
    var upToOperator := "{\"key\":\"" + t.key + "\",\"operator\":\"" + OperatorName(t.operator);
    EncodeWithoutValue(t);
    KeyOperatorText(t.key, t.operator);
    EffectMemberText(t.effect.value);
    assert "\"" + ",\"effect\":\"" == "\",\"effect\":\"";
    AppendLastMember(upToOperator, "\"", ",\"effect\":\"", "\",\"effect\":\"", EffectName(t.effect.value));
  }

  /** The key and value of `Key1Equal` need no escaping. */
  lemma Key1Plain()
    ensures AllUnescaped(Key1Equal.key) && AllUnescaped(Key1Equal.value)
  {
  }

  /** TestConstructPatch: a single toleration with a value and no effect. */
  lemma {:induction false} ConstructPatchKey1()
    ensures ConstructPatch([Key1Equal])
         == "[{\"op\":\"replace\",\"path\":\"/spec/tolerations\",\"value\":"
          + ("[" + ("{\"key\":\"" + "key1" + "\",\"operator\":\"" + "Equal" + "\",\"value\":\"" + "value1" + "\"}") + "]")
          + "}]"
  {
    var t := Key1Equal;
    assert t.key == "key1" && t.value == "value1" && OperatorName(t.operator) == "Equal" && t.effect.None?;
    Key1Plain();
    hide *;
    EncodeKeyOperatorValue(t);
    SingletonPatch(t, "{\"key\":\"" + "key1" + "\",\"operator\":\"" + "Equal" + "\",\"value\":\"" + "value1" + "\"}");
  }

  /** The default configuration's toleration key needs no escaping. */
  lemma HostKeyPlain()
    ensures AllUnescaped(AlloyDbHostKey)
  {
    var front, back := "cloud.google.com/", "alloydb-host";
    assert AlloyDbHostKey == front + back;
    assert AllUnescaped(front);
    assert AllUnescaped(back);
    assert forall i | |front| <= i < |front + back| :: (front + back)[i] == back[i - |front|];
  }

  /** The patch for a pod without tolerations under the default configuration. */
  lemma {:induction false} ConstructPatchDefault()
    ensures ConstructPatch(DefaultTolerations)
         == "[{\"op\":\"replace\",\"path\":\"/spec/tolerations\",\"value\":"
          + ("[" + ("{\"key\":\"" + "cloud.google.com/alloydb-host" + "\",\"operator\":\"" + "Exists" + "\",\"effect\":\"" + "NoSchedule" + "\"}") + "]")
          + "}]"
  {
    var t := DefaultTolerations[0];
    assert DefaultTolerations == [t];
    assert t.key == AlloyDbHostKey == "cloud.google.com/alloydb-host" && t.value == "";
    assert OperatorName(t.operator) == "Exists" && t.effect == Some(NoSchedule) && EffectName(NoSchedule) == "NoSchedule";
    HostKeyPlain();
    hide *;
    EncodeKeyOperatorEffect(t);
    SingletonPatch(t, "{\"key\":\"" + "cloud.google.com/alloydb-host" + "\",\"operator\":\"" + "Exists" + "\",\"effect\":\"" + "NoSchedule" + "\"}");
  }

  /** The patch for a pod that already tolerates key1, under the default configuration. */
  lemma {:induction false} ConstructPatchKey1ThenDefault()
    ensures ConstructPatch([Key1Equal] + DefaultTolerations)
         == "[{\"op\":\"replace\",\"path\":\"/spec/tolerations\",\"value\":"
          + ("[" + ("{\"key\":\"" + "key1" + "\",\"operator\":\"" + "Equal" + "\",\"value\":\"" + "value1" + "\"}")
          + ("," + ("{\"key\":\"" + "cloud.google.com/alloydb-host" + "\",\"operator\":\"" + "Exists" + "\",\"effect\":\"" + "NoSchedule" + "\"}") + "]"))
          + "}]"
  {
    var t1, t2 := Key1Equal, DefaultTolerations[0];
    assert [Key1Equal] + DefaultTolerations == [t1, t2];
    assert t1.key == "key1" && t1.value == "value1" && OperatorName(t1.operator) == "Equal" && t1.effect.None?;
    assert t2.key == AlloyDbHostKey == "cloud.google.com/alloydb-host" && t2.value == "";
    assert OperatorName(t2.operator) == "Exists" && t2.effect == Some(NoSchedule) && EffectName(NoSchedule) == "NoSchedule";
    Key1Plain();
    HostKeyPlain();
    hide *;
    EncodeKeyOperatorValue(t1);
    EncodeKeyOperatorEffect(t2);
    PairPatch(t1, t2,
      "{\"key\":\"" + "key1" + "\",\"operator\":\"" + "Equal" + "\",\"value\":\"" + "value1" + "\"}",
      "{\"key\":\"" + "cloud.google.com/alloydb-host" + "\",\"operator\":\"" + "Exists" + "\",\"effect\":\"" + "NoSchedule" + "\"}");
  }

  /** The patch for one toleration whose encoding is `x`. */
  lemma {:induction false} SingletonPatch(t: Toleration, x: string)
    requires EncodeToleration(t) == x
    ensures ConstructPatch([t]) == PatchPrefix + ("[" + x + "]") + "}]"
  {
    assert [t][1..] == [] && EncodeMore([]) == "";
    assert EncodeArray([t]) == "[" + x + "" + "]";
    assert "[" + x + "" == "[" + x;
    hide EncodeArray, EncodeToleration, EncodeMore;
  }

  /** The patch for two tolerations whose encodings are `x` and `y`. */
  lemma {:induction false} PairPatch(t1: Toleration, t2: Toleration, x: string, y: string)
    requires EncodeToleration(t1) == x && EncodeToleration(t2) == y
    ensures ConstructPatch([t1, t2]) == PatchPrefix + ("[" + x + ("," + y + "]")) + "}]"
  {
    assert [t1, t2][1..] == [t2];
    assert [t2][1..] == [];
    assert EncodeMore([t2]) == "," + y + "";
    assert "," + y + "" == "," + y;
    assert EncodeArray([t1, t2]) == "[" + x + ("," + y) + "]";
    Assoc("[" + x, "," + y, "]");
  }
}
