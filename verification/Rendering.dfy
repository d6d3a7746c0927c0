/** From a provisioning request to the commands sent to the OLT. */
module Rendering {
  import opened Text
  import opened Decimal
  import opened Replacer
  import opened Templates

  // ---- VLAN profiles and template data

  type Profiles = map<string, string>

  /** The profile of a VLAN: the one the device listed, or a name made from the number. */
  function ResolveVlanProfile(profiles: Profiles, vlan: int): string {
    if vlan <= 0 then ""
    else if SignedDec(vlan) in profiles && profiles[SignedDec(vlan)] != "" then profiles[SignedDec(vlan)]
    else "P" + SignedDec(vlan)
  }

  datatype RequestValues = RequestValues(
    oltId: string, templateId: string, board: int, pon: int, onuId: int, sn: string, name: string, bandwidth: string,
    vlanInternet: int, vlanHotspot: int, profileInternet: string, profileHotspot: string, pppoeUser: string, pppoePass: string)

  /** Profiles the caller chose are kept. */
  function WithProfiles(r: RequestValues, profiles: Profiles): RequestValues {
    r.(profileInternet := if r.profileInternet == "" then ResolveVlanProfile(profiles, r.vlanInternet) else r.profileInternet,
       profileHotspot := if r.profileHotspot == "" then ResolveVlanProfile(profiles, r.vlanHotspot) else r.profileHotspot)
  }

  class Request {
    var values: RequestValues

    constructor (values: RequestValues)
      ensures this.values == values
    {
      this.values := values;
    }

    method ApplyVlanProfiles(profiles: Profiles)
      modifies this
      ensures values == WithProfiles(old(values), profiles)
      ensures values.profileInternet == if old(values).profileInternet != "" then old(values).profileInternet
                                        else ResolveVlanProfile(profiles, old(values).vlanInternet)
      ensures values.profileHotspot == if old(values).profileHotspot != "" then old(values).profileHotspot
                                       else ResolveVlanProfile(profiles, old(values).vlanHotspot)
      ensures values.(profileInternet := old(values).profileInternet, profileHotspot := old(values).profileHotspot) == old(values)
    {
      if values.profileInternet == "" {
        values := values.(profileInternet := ResolveVlanProfile(profiles, values.vlanInternet));
      }
      if values.profileHotspot == "" {
        values := values.(profileHotspot := ResolveVlanProfile(profiles, values.vlanHotspot));
      }
    }
  }

  function DefaultOnuType(templateId: string): string {
    if HasPrefix(templateId, "huawei_") then "HG8245H" else "ZTE-F609"
  }

  function DataOf(r: RequestValues): Data {
    (f: Field) =>
      match f
      case Slot => SignedDec(r.board)
      case PonPort => SignedDec(r.pon)
      case OnuId => SignedDec(r.onuId)
      case Sn => r.sn
      case OnuName => r.name
      case Bandwidth => r.bandwidth
      case VlanHsi => SignedDec(r.vlanInternet)
      case VlanHot => SignedDec(r.vlanHotspot)
      case ProfileHsi => r.profileInternet
      case ProfileHot => r.profileHotspot
      case PppoeUser => r.pppoeUser
      case PppoePass => r.pppoePass
      case OnuType => DefaultOnuType(r.templateId)
  }

  // ---- rendering

  /** Blank lines and comment lines are dropped. */
  predicate Kept(line: string) { TrimSpace(line) != "" && !HasPrefix(TrimSpace(line), "!") }

  function KeptLines(lines: seq<string>): seq<string> {
    if lines == [] then []
    else
      var last := lines[|lines| - 1];
      KeptLines(lines[..|lines| - 1]) + if Kept(last) then [TrimSpace(last)] else []
  }

  /** The command lines of a template text, before filling in. */
  function CommandLines(raw: string): seq<string> { KeptLines(Split(raw, '\n')) }

  function Render(raw: string, data: Data): (commands: seq<string>)
    ensures |commands| == |CommandLines(raw)|
    ensures forall i :: 0 <= i < |commands| ==> commands[i] == Replace(Pairs(ALL_FIELDS, data), CommandLines(raw)[i])
  {
    seq(|CommandLines(raw)|, i requires 0 <= i < |CommandLines(raw)| => Replace(Pairs(ALL_FIELDS, data), CommandLines(raw)[i]))
  }

  method RenderProvisioningTemplate(raw: string, data: Data) returns (commands: seq<string>)
    ensures commands == Render(raw, data)
  {
    var replacer := Pairs(ALL_FIELDS, data);
    var lines := Split(raw, '\n');
    commands := [];
    for i := 0 to |lines|
      invariant |commands| == |KeptLines(lines[..i])|
      invariant forall k :: 0 <= k < |commands| ==> commands[k] == Replace(replacer, KeptLines(lines[..i])[k])
    {
      assert lines[..i + 1][..i] == lines[..i];
      var trimmed := TrimSpace(lines[i]);
      if trimmed == "" || HasPrefix(trimmed, "!") {
        continue;
      }
      commands := commands + [Replace(replacer, trimmed)];
    }
    assert lines[..|lines|] == lines;
  }

  lemma {:induction false} KeptJoin(a: seq<string>, b: seq<string>)
    ensures KeptLines(a + b) == KeptLines(a) + KeptLines(b)
    decreases |b|
  {
    if b == [] {
      assert a + b == a;
    } else {
      assert (a + b)[..|a + b| - 1] == a + b[..|b| - 1];
      KeptJoin(a, b[..|b| - 1]);
    }
  }

  lemma KeptOne(line: string)
    ensures KeptLines([line]) == if Kept(line) then [TrimSpace(line)] else []
  {
    assert [line][..0] == [];
  }

  /** A line of a template counts as the text it holds between white space, and not at all when that is
      empty or begins with an exclamation mark. */
  lemma LineCounts(before: seq<string>, w0: string, text: string, w1: string, after: seq<string>)
    requires Trimmed(text)
    requires forall i :: 0 <= i < |w0| ==> IsSpace(w0[i])
    requires forall i :: 0 <= i < |w1| ==> IsSpace(w1[i])
    ensures KeptLines(before + [w0 + text + w1] + after)
            == KeptLines(before) + (if text == "" || text[0] == '!' then [] else [text]) + KeptLines(after)
  {
    TrimSpaceAround(w0, text, w1);
    KeptJoin(before + [w0 + text + w1], after);
    KeptJoin(before, [w0 + text + w1]);
    KeptOne(w0 + text + w1);
  }

  // ---- templates made of tokens

  /** A line that begins and ends with something that is neither white space nor a comment mark. */
  predicate Bounded(line: seq<Token>) {
    && line != []
    && (line[0].Lit? ==> !IsSpace(line[0].text[0]) && line[0].text[0] != '!')
    && (var last := line[|line| - 1]; last.Lit? ==> !IsSpace(last.text[|last.text| - 1]))
  }

  type Line = l: seq<Token> | Bounded(l) witness [Hole(Slot)]

  function Glue(texts: seq<string>): string {
    if texts == [] then "" else texts[0] + Glue(texts[1..])
  }

  lemma {:induction false} GlueEnds(texts: seq<string>)
    requires texts != [] && forall i :: 0 <= i < |texts| ==> texts[i] != "" && '\n' !in texts[i]
    ensures '\n' !in Glue(texts) && Glue(texts) != ""
    ensures Glue(texts)[0] == texts[0][0]
    ensures var last := texts[|texts| - 1]; Glue(texts)[|Glue(texts)| - 1] == last[|last| - 1]
    decreases |texts|
  {
    if |texts| == 1 {
      assert Glue(texts[1..]) == "";
    } else {
      GlueEnds(texts[1..]);
    }
  }

  function TokenText(t: Token): string {
    match t
    case Lit(text) => text
    case Hole(f) => Placeholder(f)
  }

  function TokenTexts(line: seq<Token>): (texts: seq<string>)
    ensures |texts| == |line|
  {
    if line == [] then [] else [TokenText(line[0])] + TokenTexts(line[1..])
  }

  lemma {:induction false} TokenTextAt(line: seq<Token>, i: nat)
    requires i < |line|
    ensures TokenTexts(line)[i] == TokenText(line[i])
    decreases |line|
  {
    if i > 0 { TokenTextAt(line[1..], i - 1); }
  }

  lemma {:induction false} PrintGlues(line: seq<Token>)
    ensures Print(line) == Glue(TokenTexts(line))
    decreases |line|
  {
    if line != [] {
      PrintGlues(line[1..]);
      assert TokenTexts(line)[1..] == TokenTexts(line[1..]);
    }
  }

  lemma PlaceholderEnds(f: Field)
    ensures var p := Placeholder(f); '\n' !in p && p != "" && p[0] == '{' && p[|p| - 1] == '}'
  {
    FieldNameChars(f);
  }

  predicate GoodText(t: string) { t != "" && '\n' !in t }

  lemma BracesBoundLines(text: string)
    requires text != "" && text[0] == '{' && text[|text| - 1] == '}'
    ensures !IsSpace(text[0]) && text[0] != '!' && !IsSpace(text[|text| - 1])
  {
  }

  lemma TokenGood(line: Line, i: nat)
    requires i < |line|
    ensures var text := TokenTexts(line)[i];
            && GoodText(text)
            && (i == 0 ==> !IsSpace(text[0]) && text[0] != '!')
            && (i == |line| - 1 ==> !IsSpace(text[|text| - 1]))
  {
    TokenTextAt(line, i);
    match line[i]
    case Lit(text) => assert TokenTexts(line)[i] == text;
    case Hole(f) =>
      PlaceholderEnds(f);
      BracesBoundLines(TokenTexts(line)[i]);
  }

  ghost predicate GoodTexts(texts: seq<string>) {
    && texts != [] && (forall i :: 0 <= i < |texts| ==> GoodText(texts[i]))
    && !IsSpace(texts[0][0]) && texts[0][0] != '!'
    && (var last := texts[|texts| - 1]; !IsSpace(last[|last| - 1]))
  }

  lemma LineTexts(line: Line)
    ensures GoodTexts(TokenTexts(line))
  {
    forall i | 0 <= i < |line| ensures GoodText(TokenTexts(line)[i]) {
      TokenGood(line, i);
    }
    TokenGood(line, 0);
    TokenGood(line, |line| - 1);
  }

  lemma GluedKept(texts: seq<string>)
    requires GoodTexts(texts)
    ensures '\n' !in Glue(texts) && Kept(Glue(texts)) && TrimSpace(Glue(texts)) == Glue(texts)
  {
    GlueEnds(texts);
    TrimmedKept(Glue(texts));
  }

  lemma LineText(line: Line)
    ensures '\n' !in Print(line) && Kept(Print(line)) && TrimSpace(Print(line)) == Print(line)
  {
    LineTexts(line);
    GluedKept(TokenTexts(line));
    PrintGlues(line);
  }

  lemma TrimmedKept(text: string)
    requires text != "" && !IsSpace(text[0]) && text[0] != '!' && !IsSpace(text[|text| - 1])
    ensures Kept(text) && TrimSpace(text) == text
  {
  }

  function PrintLines(lines: seq<Line>): (texts: seq<string>)
    ensures |texts| == |lines|
    ensures forall i :: 0 <= i < |texts| ==> texts[i] == Print(lines[i])
  {
    seq(|lines|, i requires 0 <= i < |lines| => Print(lines[i]))
  }

  /** The text of a template: a first line break, then its lines. */
  function TemplateText(lines: seq<Line>): string { Join([""] + PrintLines(lines), '\n') }

  lemma {:induction false} KeptAll(lines: seq<string>)
    requires forall i :: 0 <= i < |lines| ==> Kept(lines[i]) && TrimSpace(lines[i]) == lines[i]
    ensures KeptLines([""] + lines) == lines
    decreases |lines|
  {
    var all := [""] + lines;
    if lines == [] {
      assert all == [""] && all[..0] == [];
      assert !Kept("");
    } else {
      var n := |lines| - 1;
      assert all[..|all| - 1] == [""] + lines[..n] && all[|all| - 1] == lines[n];
      KeptAll(lines[..n]);
      assert lines[..n] + [lines[n]] == lines;
    }
  }

  /** A template of such lines renders to one command per line: the line with its placeholders filled in,
      whatever the values hold. So the number of commands depends on the template alone. */
  lemma RenderedCommands(lines: seq<Line>, data: Data)
    ensures |Render(TemplateText(lines), data)| == |lines|
    ensures forall i :: 0 <= i < |lines| ==> Render(TemplateText(lines), data)[i] == Fill(lines[i], ALL_FIELDS, data)
  {
    var texts := PrintLines(lines);
    forall i | 0 <= i < |lines|
      ensures '\n' !in texts[i] && Kept(texts[i]) && TrimSpace(texts[i]) == texts[i]
    {
      LineText(lines[i]);
    }
    SplitJoin([""] + texts, '\n');
    KeptAll(texts);
    forall i | 0 <= i < |lines|
      ensures Render(TemplateText(lines), data)[i] == Fill(lines[i], ALL_FIELDS, data)
    {
      ReplaceFills(ALL_FIELDS, data, lines[i]);
    }
  }

  /** Numbers and the ONU type bring in neither a line break nor a brace: only the texts of a request can. */
  lemma NumbersAreClean(r: RequestValues, c: char, f: Field)
    requires c == '\n' || c == '{'
    requires f !in {Sn, OnuName, Bandwidth, ProfileHsi, ProfileHot, PppoeUser, PppoePass}
    ensures c !in DataOf(r)(f)
  {
    match f
    case Slot => CleanNumber(r.board, c);
    case PonPort => CleanNumber(r.pon, c);
    case OnuId => CleanNumber(r.onuId, c);
    case VlanHsi => CleanNumber(r.vlanInternet, c);
    case VlanHot => CleanNumber(r.vlanHotspot, c);
    case OnuType => OnuTypeClean(r.templateId, c);
  }

  lemma OnuTypeClean(templateId: string, c: char)
    requires c == '\n' || c == '{'
    ensures c !in DefaultOnuType(templateId)
  {
  }

  lemma CleanNumber(i: int, c: char)
    requires c == '\n' || c == '{'
    ensures c !in SignedDec(i)
  {
    SignedDecChars(i);
  }
}
