/** Provisioning templates: thirteen placeholders replaced at once, line by line. */
module Templates {
  import opened Text
  import opened Decimal
  import opened Replacer

  datatype Field =
    | Slot | PonPort | OnuId | Sn | OnuName | Bandwidth | VlanHsi | VlanHot
    | ProfileHsi | ProfileHot | PppoeUser | PppoePass | OnuType

  function FieldName(f: Field): string {
    match f
    case Slot => "slot"
    case PonPort => "port"
    case OnuId => "onu_id"
    case Sn => "sn"
    case OnuName => "name"
    case Bandwidth => "bandwidth"
    case VlanHsi => "vlan_hsi"
    case VlanHot => "vlan_hot"
    case ProfileHsi => "vlan_profile_hsi"
    case ProfileHot => "vlan_profile_hot"
    case PppoeUser => "pppoe_user"
    case PppoePass => "pppoe_pass"
    case OnuType => "onu_type"
  }

  const ALL_FIELDS := [Slot, PonPort, OnuId, Sn, OnuName, Bandwidth, VlanHsi, VlanHot,
                       ProfileHsi, ProfileHot, PppoeUser, PppoePass, OnuType]

  function Placeholder(f: Field): string { "{{" + FieldName(f) + "}}" }

  /** The keys as the replacer spells them. */
  lemma DevicePlaceholders()
    ensures Placeholder(Slot) == "{{slot}}" && Placeholder(PonPort) == "{{port}}" && Placeholder(OnuId) == "{{onu_id}}"
    ensures Placeholder(Sn) == "{{sn}}" && Placeholder(OnuName) == "{{name}}" && Placeholder(OnuType) == "{{onu_type}}"
    ensures Placeholder(Bandwidth) == "{{bandwidth}}"
  {
  }

  lemma ServicePlaceholders()
    ensures Placeholder(VlanHsi) == "{{vlan_hsi}}" && Placeholder(VlanHot) == "{{vlan_hot}}"
    ensures Placeholder(ProfileHsi) == "{{vlan_profile_hsi}}" && Placeholder(ProfileHot) == "{{vlan_profile_hot}}"
    ensures Placeholder(PppoeUser) == "{{pppoe_user}}" && Placeholder(PppoePass) == "{{pppoe_pass}}"
  {
  }

  type Data = Field -> string

  function Pairs(fields: seq<Field>, data: Data): (pairs: seq<Pair>)
    ensures |pairs| == |fields|
    ensures forall i :: 0 <= i < |pairs| ==> pairs[i] == Pair(Placeholder(fields[i]), data(fields[i]))
    ensures Keyed(pairs)
  {
    seq(|fields|, i requires 0 <= i < |fields| => Pair(Placeholder(fields[i]), data(fields[i])))
  }

  // ---- the placeholders are prefix-free

  lemma FieldNamesDiffer(f: Field, g: Field)
    requires FieldName(f) == FieldName(g)
    ensures f == g
  {
  }

  lemma FieldNameChars(f: Field)
    ensures '}' !in FieldName(f) && '{' !in FieldName(f) && '\n' !in FieldName(f)
  {
  }

  /** A placeholder starts a text that starts with another's only if they are the same. */
  lemma PlaceholderStarts(f: Field, g: Field, rest: string)
    requires Placeholder(f) <= Placeholder(g) + rest
    ensures f == g
  {
    var a, b := FieldName(f), FieldName(g);
    FieldNameChars(f);
    FieldNameChars(g);
    assert Placeholder(f) == "{{" + (a + "}}");
    assert Placeholder(g) + rest == "{{" + (b + "}}" + rest);
    PrefixAfter("{{", a + "}}", b + "}}" + rest);
    assert a + ['}'] <= a + "}}";
    assert b + "}}" + rest == b + ['}'] + ("}" + rest);
    SameFirst(b, a, '}', "}" + rest);
    FieldNamesDiffer(f, g);
  }

  lemma PlaceholdersPrefixFree(fields: seq<Field>, data: Data)
    ensures PrefixFree(Pairs(fields, data))
  {
    var pairs := Pairs(fields, data);
    forall p, q | p in pairs && q in pairs && p.key <= q.key ensures p == q {
      var i :| 0 <= i < |pairs| && pairs[i] == p;
      var j :| 0 <= j < |pairs| && pairs[j] == q;
      assert q.key + "" == q.key;
      PlaceholderStarts(fields[i], fields[j], "");
    }
  }

  // ---- templates as tokens

  /** Literal text of a template line: something, without braces and line breaks. */
  type Glyph = c: char | c != '{' && c != '\n' witness 'x'

  type Plain = s: seq<Glyph> | s != [] witness "x"

  datatype Token = Lit(text: Plain) | Hole(field: Field)

  function Print(tokens: seq<Token>): string {
    if tokens == [] then ""
    else (match tokens[0] case Lit(text) => text case Hole(f) => Placeholder(f)) + Print(tokens[1..])
  }

  /** The text with the given fields filled in. */
  function Fill(tokens: seq<Token>, fields: seq<Field>, data: Data): string {
    if tokens == [] then ""
    else
      (match tokens[0]
       case Lit(text) => text
       case Hole(f) => if f in fields then data(f) else Placeholder(f))
      + Fill(tokens[1..], fields, data)
  }

  lemma NoKeyMatches(pairs: seq<Pair>, s: string)
    requires Keyed(pairs) && s != ""
    requires forall p :: p in pairs ==> !(p.key <= s)
    ensures Replace(pairs, s) == [s[0]] + Replace(pairs, s[1..])
  {
    FirstMatchMember(pairs, s);
  }

  lemma KeysBegin(fields: seq<Field>, data: Data)
    ensures forall p :: p in Pairs(fields, data) ==> |p.key| > 1 && p.key[0] == '{' && p.key[1] == '{'
  {
  }

  lemma NotABrace(fields: seq<Field>, data: Data, s: string)
    requires s != "" && s[0] != '{'
    ensures Replace(Pairs(fields, data), s) == [s[0]] + Replace(Pairs(fields, data), s[1..])
  {
    KeysBegin(fields, data);
    NoKeyMatches(Pairs(fields, data), s);
  }

  lemma HeadAndTail(a: string, x: string)
    requires a != ""
    ensures (a + x)[0] == a[0] && (a + x)[1..] == a[1..] + x && [a[0]] + (a[1..] + x) == a + x
  {
  }

  lemma {:induction false} ReplaceLit(fields: seq<Field>, data: Data, a: string, rest: string)
    requires '{' !in a
    ensures Replace(Pairs(fields, data), a + rest) == a + Replace(Pairs(fields, data), rest)
    decreases |a|
  {
    if a == "" {
      assert a + rest == rest;
    } else {
      HeadAndTail(a, rest);
      NotABrace(fields, data, a + rest);
      ReplaceLit(fields, data, a[1..], rest);
      HeadAndTail(a, Replace(Pairs(fields, data), rest));
    }
  }

  lemma FilledHole(fields: seq<Field>, data: Data, f: Field, rest: string)
    requires f in fields
    ensures Replace(Pairs(fields, data), Placeholder(f) + rest) == data(f) + Replace(Pairs(fields, data), rest)
  {
    var pairs, s := Pairs(fields, data), Placeholder(f) + rest;
    var i :| 0 <= i < |fields| && fields[i] == f;
    assert pairs[i] in pairs && pairs[i].key <= s;
    PlaceholdersPrefixFree(fields, data);
    MatchUnique(pairs, s, pairs[i]);
    assert s[|Placeholder(f)|..] == rest;
  }

  lemma OpenHole(fields: seq<Field>, data: Data, f: Field, rest: string)
    requires f !in fields
    ensures Replace(Pairs(fields, data), Placeholder(f) + rest) == Placeholder(f) + Replace(Pairs(fields, data), rest)
  {
    var pairs := Pairs(fields, data);
    forall p | p in pairs ensures !(p.key <= Placeholder(f) + rest) {
      var i :| 0 <= i < |pairs| && pairs[i] == p;
      if p.key <= Placeholder(f) + rest { PlaceholderStarts(fields[i], f, rest); }
    }
    FieldNameChars(f);
    OpenHoleText(fields, data, FieldName(f), rest);
  }

  lemma BracesApart(name: string, rest: string)
    ensures "{{" + name + "}}" + rest == ['{'] + (['{'] + (name + "}}" + rest))
  {
  }

  lemma OpenHoleText(fields: seq<Field>, data: Data, name: string, rest: string)
    requires '{' !in name
    requires forall p :: p in Pairs(fields, data) ==> !(p.key <= "{{" + name + "}}" + rest)
    ensures Replace(Pairs(fields, data), "{{" + name + "}}" + rest) == "{{" + name + "}}" + Replace(Pairs(fields, data), rest)
  {
    var tail, after := name + "}}", Replace(Pairs(fields, data), rest);
    BracesApart(name, rest);
    BracesApart(name, after);
    OpenHoleStart(fields, data, ['{'] + (tail + rest));
    OpenHoleTail(fields, data, tail, rest);
  }

  lemma OpenHoleStart(fields: seq<Field>, data: Data, s: string)
    requires forall p :: p in Pairs(fields, data) ==> !(p.key <= ['{'] + s)
    ensures Replace(Pairs(fields, data), ['{'] + s) == ['{'] + Replace(Pairs(fields, data), s)
  {
    NoKeyMatches(Pairs(fields, data), ['{'] + s);
    assert (['{'] + s)[1..] == s;
  }

  lemma OpenHoleTail(fields: seq<Field>, data: Data, tail: string, rest: string)
    requires '{' !in tail && tail != ""
    ensures Replace(Pairs(fields, data), ['{'] + (tail + rest)) == ['{'] + (tail + Replace(Pairs(fields, data), rest))
  {
    var s := ['{'] + (tail + rest);
    KeysBegin(fields, data);
    assert s[1] == tail[0] != '{' && s[1..] == tail + rest;
    NoKeyMatches(Pairs(fields, data), s);
    ReplaceLit(fields, data, tail, rest);
  }

  /** Rendering a template fills exactly its placeholders, whatever the values hold: braces and other
      placeholders in a value are left as they are. */
  lemma {:induction false} ReplaceFills(fields: seq<Field>, data: Data, tokens: seq<Token>)
    ensures Replace(Pairs(fields, data), Print(tokens)) == Fill(tokens, fields, data)
    decreases |tokens|
  {
    if tokens != [] {
      var rest := Print(tokens[1..]);
      ReplaceFills(fields, data, tokens[1..]);
      match tokens[0]
      case Lit(text) => ReplaceLit(fields, data, text, rest);
      case Hole(f) => if f in fields { FilledHole(fields, data, f, rest); } else { OpenHole(fields, data, f, rest); }
    }
  }

  // ---- one key after another

  function Sequential(order: seq<Field>, data: Data, s: string): string {
    if order == [] then s else Sequential(order[1..], data, Replace(Pairs([order[0]], data), s))
  }

  ghost predicate BraceFree(data: Data) { forall f: Field :: '{' !in data(f) }

  lemma {:induction false} FillNone(tokens: seq<Token>, data: Data)
    ensures Fill(tokens, [], data) == Print(tokens)
    decreases |tokens|
  {
    if tokens != [] { FillNone(tokens[1..], data); }
  }

  /** Filling in one more field of a text whose values so far hold no brace. */
  lemma {:induction false} FillMore(tokens: seq<Token>, filled: seq<Field>, f: Field, data: Data)
    requires BraceFree(data)
    ensures Replace(Pairs([f], data), Fill(tokens, filled, data)) == Fill(tokens, filled + [f], data)
    decreases |tokens|
  {
    if tokens != [] {
      var rest := Fill(tokens[1..], filled, data);
      FillMore(tokens[1..], filled, f, data);
      match tokens[0]
      case Lit(text) => ReplaceLit([f], data, text, rest);
      case Hole(g) =>
        if g in filled {
          ReplaceLit([f], data, data(g), rest);
        } else if g == f {
          FilledHole([f], data, f, rest);
        } else {
          OpenHole([f], data, g, rest);
        }
    }
  }

  lemma {:induction false} SequentialFills(filled: seq<Field>, order: seq<Field>, data: Data, tokens: seq<Token>)
    requires BraceFree(data)
    ensures Sequential(order, data, Fill(tokens, filled, data)) == Fill(tokens, filled + order, data)
    decreases |order|
  {
    if order == [] {
      assert filled + order == filled;
    } else {
      FillMore(tokens, filled, order[0], data);
      SequentialFills(filled + [order[0]], order[1..], data, tokens);
      assert filled + [order[0]] + order[1..] == filled + order;
    }
  }

  /** With values free of braces, replacing the keys one by one in any order gives what replacing them
      at once gives. */
  lemma SequentialAgrees(order: seq<Field>, data: Data, tokens: seq<Token>)
    requires BraceFree(data)
    ensures Sequential(order, data, Print(tokens)) == Replace(Pairs(order, data), Print(tokens))
  {
    ReplaceFills(order, data, tokens);
    FillNone(tokens, data);
    SequentialFills([], order, data, tokens);
    assert [] + order == order;
  }

  /** A value that is itself a placeholder tells the two apart. */
  lemma SequentialDiffers(data: Data)
    requires data(Slot) == "{{port}}" && data(PonPort) == "7"
    ensures Replace(Pairs([Slot, PonPort], data), Print([Hole(Slot)])) == "{{port}}"
    ensures Sequential([Slot, PonPort], data, Print([Hole(Slot)])) == "7"
  {
    ReplaceFills([Slot, PonPort], data, [Hole(Slot)]);
    FillSingle(Slot, [Slot, PonPort], data);
    FillSingle(Slot, [Slot], data);
    ReplaceFills([Slot], data, [Hole(Slot)]);
    assert Placeholder(PonPort) == "{{port}}";
    FillSingle(PonPort, [PonPort], data);
    ReplaceFills([PonPort], data, [Hole(PonPort)]);
    assert Print([Hole(PonPort)]) == "{{port}}" + Print([]);
    SequentialTwo(data, Print([Hole(Slot)]));
  }

  lemma SequentialTwo(data: Data, s: string)
    ensures Sequential([Slot, PonPort], data, s) == Replace(Pairs([PonPort], data), Replace(Pairs([Slot], data), s))
  {
    var r := Replace(Pairs([Slot], data), s);
    assert [Slot, PonPort][1..] == [PonPort] && [PonPort][1..] == [];
    assert Sequential([PonPort], data, r) == Sequential([], data, Replace(Pairs([PonPort], data), r));
  }

  lemma FillSingle(f: Field, fields: seq<Field>, data: Data)
    requires f in fields
    ensures Fill([Hole(f)], fields, data) == data(f)
  {
  }

  lemma AllFields(f: Field)
    ensures f in ALL_FIELDS
  {
  }

  /** A value that one of the fields puts in holds the character. */
  ghost predicate Brings(tokens: seq<Token>, data: Data, c: char) { exists f :: Hole(f) in tokens && c in data(f) }

  /** Braces and line breaks in a filled line come from the values of its fields and from nowhere else: with
      values free of them no placeholder remains, and the command stays one line. */
  lemma {:induction false} FillHolds(tokens: seq<Token>, data: Data, c: char)
    requires c == '{' || c == '\n'
    ensures c in Fill(tokens, ALL_FIELDS, data) <==> Brings(tokens, data, c)
    decreases |tokens|
  {
    if tokens != [] {
      FillHolds(tokens[1..], data, c);
      if tokens[0].Hole? {
        AllFields(tokens[0].field);
        assert tokens[0] in tokens;
      }
      assert forall f :: Hole(f) in tokens <==> tokens[0] == Hole(f) || Hole(f) in tokens[1..];
    }
  }

  // ---- what a filled line says about the values

  /** Data that agree on every field of a line. */
  ghost predicate Agree(tokens: seq<Token>, d1: Data, d2: Data) {
    forall f :: Hole(f) in tokens ==> d1(f) == d2(f)
  }

  /** Every field ends the line or is followed by a literal whose first character its value does not
      hold, so that a reader knows where it ends. */
  predicate Readable(tokens: seq<Token>, data: Data) {
    forall i :: 0 <= i < |tokens| && tokens[i].Hole? && i + 1 < |tokens| ==>
      tokens[i + 1].Lit? && tokens[i + 1].text[0] !in data(tokens[i].field)
  }

  lemma AgreeTail(tokens: seq<Token>, d1: Data, d2: Data)
    requires tokens != [] && Agree(tokens, d1, d2)
    ensures Agree(tokens[1..], d1, d2)
  {
    assert forall t :: t in tokens[1..] ==> t in tokens;
  }

  lemma {:induction false} AgreeFills(tokens: seq<Token>, d1: Data, d2: Data)
    requires Agree(tokens, d1, d2)
    ensures Fill(tokens, ALL_FIELDS, d1) == Fill(tokens, ALL_FIELDS, d2)
    decreases |tokens|
  {
    if tokens != [] {
      AgreeTail(tokens, d1, d2);
      AgreeFills(tokens[1..], d1, d2);
      if tokens[0].Hole? {
        AllFields(tokens[0].field);
        assert tokens[0] in tokens;
      }
    }
  }

  lemma ReadableTail(tokens: seq<Token>, data: Data)
    requires tokens != [] && Readable(tokens, data)
    ensures Readable(tokens[1..], data)
  {
    var rest := tokens[1..];
    assert forall i :: 0 <= i < |rest| ==> rest[i] == tokens[i + 1];
  }

  /** Cutting two texts at the same character. */
  lemma CutEqual(v1: string, v2: string, c: char, r1: string, r2: string)
    requires c !in v1 && c !in v2 && v1 + ([c] + r1) == v2 + ([c] + r2)
    ensures v1 == v2
  {
    assert v1 + ([c] + r1) == v1 + [c] + r1 && v2 + ([c] + r2) == v2 + [c] + r2;
    assert v2 + [c] <= v2 + [c] + r2;
    SameFirst(v1, v2, c, r1);
  }

  lemma FillStarts(tokens: seq<Token>, data: Data)
    requires tokens != [] && tokens[0].Lit?
    ensures Fill(tokens, ALL_FIELDS, data) == [tokens[0].text[0]] + (tokens[0].text[1..] + Fill(tokens[1..], ALL_FIELDS, data))
  {
  }

  lemma FirstField(tokens: seq<Token>, d1: Data, d2: Data)
    requires tokens != [] && tokens[0].Hole? && Readable(tokens, d1) && Readable(tokens, d2)
    requires Fill(tokens, ALL_FIELDS, d1) == Fill(tokens, ALL_FIELDS, d2)
    ensures d1(tokens[0].field) == d2(tokens[0].field)
  {
    var f, rest := tokens[0].field, tokens[1..];
    AllFields(f);
    if rest == [] {
      assert Fill(rest, ALL_FIELDS, d1) == "" && Fill(rest, ALL_FIELDS, d2) == "";
      assert d1(f) + "" == d1(f) && d2(f) + "" == d2(f);
    } else {
      assert rest[0] == tokens[1];
      FillStarts(rest, d1);
      FillStarts(rest, d2);
      CutEqual(d1(f), d2(f), rest[0].text[0], rest[0].text[1..] + Fill(rest[1..], ALL_FIELDS, d1),
               rest[0].text[1..] + Fill(rest[1..], ALL_FIELDS, d2));
    }
  }

  /** A readable line determines the value of every field in it: filled with two sets of values it gives
      the same text exactly when they agree on its fields. */
  lemma {:induction false} ReadBack(tokens: seq<Token>, d1: Data, d2: Data)
    requires Readable(tokens, d1) && Readable(tokens, d2)
    ensures Fill(tokens, ALL_FIELDS, d1) == Fill(tokens, ALL_FIELDS, d2) <==> Agree(tokens, d1, d2)
    decreases |tokens|
  {
    if Agree(tokens, d1, d2) {
      AgreeFills(tokens, d1, d2);
    }
    if tokens != [] && Fill(tokens, ALL_FIELDS, d1) == Fill(tokens, ALL_FIELDS, d2) {
      var rest := tokens[1..];
      ReadableTail(tokens, d1);
      ReadableTail(tokens, d2);
      if tokens[0].Hole? {
        AllFields(tokens[0].field);
        FirstField(tokens, d1, d2);
        SameAfter(d1(tokens[0].field), Fill(rest, ALL_FIELDS, d1), Fill(rest, ALL_FIELDS, d2));
      } else {
        SameAfter(tokens[0].text, Fill(rest, ALL_FIELDS, d1), Fill(rest, ALL_FIELDS, d2));
      }
      ReadBack(rest, d1, d2);
      assert forall f :: Hole(f) in tokens ==> tokens[0] == Hole(f) || Hole(f) in rest;
    }
  }

  lemma SameAfter(head: string, a: string, b: string)
    requires head + a == head + b
    ensures a == b
  {
    assert (head + a)[|head|..] == a && (head + b)[|head|..] == b;
  }
}
