/** The commands a provisioning request turns into, under each of the program's templates. */
module Commands {
  import opened Text
  import opened Decimal
  import opened Templates
  import opened Rendering
  import opened ProgramTemplates

  predicate Zte(id: string) { id == "zte_v2" || id == "zte_v1" }

  predicate Huawei(id: string) { id == "huawei_v2" || id == "huawei_v1" }

  predicate Known(id: string) { Zte(id) || Huawei(id) }

  function TemplateLines(id: string): seq<ProgramLine>
    requires Known(id)
  {
    if id == "zte_v2" then ZTE_V2 else if id == "zte_v1" then ZTE_V1
    else if id == "huawei_v2" then HUAWEI_V2 else HUAWEI_V1
  }

  /** The text of a template; None is the error for an unknown name. */
  function ProvisioningTemplate(id: string): Option<string> {
    if Known(id) then Some(TemplateText(TemplateLines(id))) else None
  }

  function GenerateCommands(r: RequestValues): Option<seq<string>> {
    var raw := ProvisioningTemplate(r.templateId);
    if raw.None? then None else Some(Render(raw.value, DataOf(r)))
  }

  function CommandCount(id: string): nat
    requires Known(id)
  {
    if id == "zte_v2" then 25 else if id == "zte_v1" then 31 else if id == "huawei_v2" then 22 else 24
  }

  lemma TemplateSize(id: string)
    requires Known(id)
    ensures |TemplateLines(id)| == CommandCount(id)
  {
  }

  /** One command per line: the line with the values filled in. */
  ghost predicate FilledIn(commands: seq<string>, lines: seq<Line>, data: Data) {
    && |commands| == |lines|
    && forall i :: 0 <= i < |lines| ==> commands[i] == Fill(lines[i], ALL_FIELDS, data)
  }

  lemma RenderFillsIn(lines: seq<ProgramLine>, data: Data)
    ensures FilledIn(Render(TemplateText(lines), data), lines, data)
  {
    RenderedCommands(lines, data);
  }

  /** Every request with a known template becomes the template's lines with the request's values filled
      in, whatever those hold. */
  lemma GeneratedCommands(r: RequestValues)
    requires Known(r.templateId)
    ensures GenerateCommands(r).Some?
    ensures FilledIn(GenerateCommands(r).value, TemplateLines(r.templateId), DataOf(r))
  {
    RenderFillsIn(TemplateLines(r.templateId), DataOf(r));
  }

  /** So the number of commands depends on the template alone. */
  lemma GeneratedCount(r: RequestValues)
    requires Known(r.templateId)
    ensures GenerateCommands(r).Some? && |GenerateCommands(r).value| == CommandCount(r.templateId)
  {
    GeneratedCommands(r);
    TemplateSize(r.templateId);
  }

  // ---- what the commands depend on

  predicate SameDevice(a: RequestValues, b: RequestValues) {
    && a.board == b.board && a.pon == b.pon && a.onuId == b.onuId && a.sn == b.sn && a.name == b.name
    && a.bandwidth == b.bandwidth && a.vlanInternet == b.vlanInternet && a.vlanHotspot == b.vlanHotspot
  }

  function LoginWith(r: RequestValues, x: string, y: string): string {
    r.pppoeUser + (x + (r.pppoePass + (y + r.profileInternet)))
  }

  /** The login as the one line that holds it prints it. */
  function LoginText(r: RequestValues): string { LoginWith(r, " password ", " vlan-profile ") }

  /** What a template uses of a request: the login only with the ZTE ones, the hotspot profile and the
      OLT's ID never. */
  predicate SameUse(a: RequestValues, b: RequestValues) {
    && a.templateId == b.templateId && SameDevice(a, b)
    && (Zte(a.templateId) ==> LoginText(a) == LoginText(b))
  }

  lemma LitFirst(line: seq<Token>, data: Data)
    requires line != [] && line[0].Lit?
    ensures Fill(line, ALL_FIELDS, data) == line[0].text + Fill(line[1..], ALL_FIELDS, data)
  {
  }

  lemma HoleFirst(line: seq<Token>, data: Data)
    requires line != [] && line[0].Hole?
    ensures Fill(line, ALL_FIELDS, data) == data(line[0].field) + Fill(line[1..], ALL_FIELDS, data)
  {
    AllFields(line[0].field);
  }

  lemma HoleLit(line: seq<Token>, data: Data)
    requires |line| >= 2 && line[0].Hole? && line[1].Lit?
    ensures Fill(line, ALL_FIELDS, data) == data(line[0].field) + (line[1].text + Fill(line[2..], ALL_FIELDS, data))
  {
    HoleFirst(line, data);
    LitFirst(line[1..], data);
    assert line[1..][1..] == line[2..];
  }

  /** A text, three fields with texts between them, and a last text. */
  predicate ThreeFields(line: seq<Token>) {
    && |line| == 7 && line[0].Lit? && line[1].Hole? && line[2].Lit? && line[3].Hole? && line[4].Lit? && line[5].Hole? && line[6].Lit?
  }

  lemma ThreeFieldsFill(line: seq<Token>, data: Data)
    requires ThreeFields(line)
    ensures Fill(line, ALL_FIELDS, data) == line[0].text + (data(line[1].field) + (line[2].text
              + (data(line[3].field) + (line[4].text + (data(line[5].field) + line[6].text)))))
  {
    LitFirst(line, data);
    HoleLit(line[1..], data);
    assert line[1..][2..] == line[3..];
    HoleLit(line[3..], data);
    assert line[3..][2..] == line[5..];
    HoleLit(line[5..], data);
    assert line[5..][2..] == [];
    assert line[6].text + Fill([], ALL_FIELDS, data) == line[6].text;
  }

  lemma Regroup(u: string, x: string, p: string, y: string, v: string, z: string)
    ensures u + (x + (p + (y + (v + z)))) == (u + (x + (p + (y + v)))) + z
  {
    assert p + (y + (v + z)) == (p + (y + v)) + z;
    assert x + ((p + (y + v)) + z) == (x + (p + (y + v))) + z;
  }

  predicate LoginLine(line: seq<Token>) {
    ThreeFields(line) && line[1].field == PppoeUser && line[3].field == PppoePass && line[5].field == ProfileHsi
  }

  lemma LoginFill(line: seq<Token>, r: RequestValues)
    requires LoginLine(line)
    ensures Fill(line, ALL_FIELDS, DataOf(r)) == line[0].text + (LoginWith(r, line[2].text, line[4].text) + line[6].text)
  {
    ThreeFieldsFill(line, DataOf(r));
    Regroup(r.pppoeUser, line[2].text, r.pppoePass, line[4].text, r.profileInternet, line[6].text);
  }

  lemma SameBetween(a: string, x: string, y: string, z: string)
    ensures a + (x + z) == a + (y + z) <==> x == y
  {
    if a + (x + z) == a + (y + z) {
      SameAfter(a, x + z, y + z);
      assert |x| == |y|;
      assert (x + z)[..|x|] == x && (y + z)[..|y|] == y;
    }
  }

  lemma LoginTells(line: seq<Token>, a: RequestValues, b: RequestValues)
    requires LoginLine(line)
    ensures Fill(line, ALL_FIELDS, DataOf(a)) == Fill(line, ALL_FIELDS, DataOf(b))
       <==> LoginWith(a, line[2].text, line[4].text) == LoginWith(b, line[2].text, line[4].text)
  {
    LoginFill(line, a);
    LoginFill(line, b);
    SameBetween(line[0].text, LoginWith(a, line[2].text, line[4].text), LoginWith(b, line[2].text, line[4].text), line[6].text);
  }

  /** The login line tells the login as it is printed, and nothing more. */
  lemma WanTells(a: RequestValues, b: RequestValues)
    ensures Fill(WAN, ALL_FIELDS, DataOf(a)) == Fill(WAN, ALL_FIELDS, DataOf(b)) <==> LoginText(a) == LoginText(b)
  {
    LoginTells(WAN, a, b);
  }

  // ---- requests that a template cannot tell apart

  lemma SharedSame(line: SharedLine, a: RequestValues, b: RequestValues)
    requires a.templateId == b.templateId && SameDevice(a, b)
    ensures Fill(line, ALL_FIELDS, DataOf(a)) == Fill(line, ALL_FIELDS, DataOf(b))
  {
    AgreeFills(line, DataOf(a), DataOf(b));
  }

  lemma LineSame(line: ProgramLine, a: RequestValues, b: RequestValues)
    requires a.templateId == b.templateId && SameDevice(a, b) && LoginText(a) == LoginText(b)
    ensures Fill(line, ALL_FIELDS, DataOf(a)) == Fill(line, ALL_FIELDS, DataOf(b))
  {
    if NoLogin(line) { SharedSame(line, a, b); } else { WanTells(a, b); }
  }

  lemma SharedRendersSame(lines: seq<SharedLine>, a: RequestValues, b: RequestValues)
    requires a.templateId == b.templateId && SameDevice(a, b)
    ensures Render(TemplateText(lines), DataOf(a)) == Render(TemplateText(lines), DataOf(b))
  {
    RenderFillsIn(lines, DataOf(a));
    RenderFillsIn(lines, DataOf(b));
    forall i | 0 <= i < |lines|
      ensures Fill(lines[i], ALL_FIELDS, DataOf(a)) == Fill(lines[i], ALL_FIELDS, DataOf(b))
    {
      SharedSame(lines[i], a, b);
    }
  }

  lemma RendersSame(lines: seq<ProgramLine>, a: RequestValues, b: RequestValues)
    requires a.templateId == b.templateId && SameDevice(a, b) && LoginText(a) == LoginText(b)
    ensures Render(TemplateText(lines), DataOf(a)) == Render(TemplateText(lines), DataOf(b))
  {
    RenderFillsIn(lines, DataOf(a));
    RenderFillsIn(lines, DataOf(b));
    forall i | 0 <= i < |lines|
      ensures Fill(lines[i], ALL_FIELDS, DataOf(a)) == Fill(lines[i], ALL_FIELDS, DataOf(b))
    {
      LineSame(lines[i], a, b);
    }
  }

  lemma HuaweiLines(id: string) returns (lines: seq<SharedLine>)
    requires Huawei(id)
    ensures lines == TemplateLines(id)
  {
    lines := if id == "huawei_v2" then HUAWEI_V2 else HUAWEI_V1;
  }

  lemma ZteSame(a: RequestValues, b: RequestValues)
    requires Zte(a.templateId) && SameUse(a, b)
    ensures GenerateCommands(a) == GenerateCommands(b)
  {
    RendersSame(TemplateLines(a.templateId), a, b);
  }

  lemma HuaweiSame(a: RequestValues, b: RequestValues)
    requires Huawei(a.templateId) && SameUse(a, b)
    ensures GenerateCommands(a) == GenerateCommands(b)
  {
    var lines := HuaweiLines(a.templateId);
    SharedRendersSame(lines, a, b);
  }

  lemma SameUseSame(a: RequestValues, b: RequestValues)
    requires Known(a.templateId) && SameUse(a, b)
    ensures GenerateCommands(a) == GenerateCommands(b)
  {
    if Zte(a.templateId) { ZteSame(a, b); } else { HuaweiSame(a, b); }
  }

  // ---- what the commands tell

  /** Fields whose values are a number or the ONU type, each ended by a space, a slash or a colon; any
      field at the end of the line. */
  predicate Apart(line: seq<Token>) {
    forall i :: 0 <= i < |line| && line[i].Hole? && i + 1 < |line| ==>
      && line[i].field in {Slot, PonPort, OnuId, VlanHsi, VlanHot, OnuType}
      && line[i + 1].Lit? && line[i + 1].text[0] in {' ', '/', ':'}
  }

  lemma NumberText(i: int, c: char)
    requires c in {' ', '/', ':'}
    ensures c !in SignedDec(i)
  {
    SignedDecChars(i);
  }

  lemma ApartText(f: Field, r: RequestValues, c: char)
    requires f in {Slot, PonPort, OnuId, VlanHsi, VlanHot, OnuType} && c in {' ', '/', ':'}
    ensures c !in DataOf(r)(f)
  {
    NumberText(r.board, c);
    NumberText(r.pon, c);
    NumberText(r.onuId, c);
    NumberText(r.vlanInternet, c);
    NumberText(r.vlanHotspot, c);
  }

  lemma ApartReadable(line: seq<Token>, r: RequestValues)
    requires Apart(line)
    ensures Readable(line, DataOf(r))
  {
    forall i | 0 <= i < |line| && line[i].Hole? && i + 1 < |line|
      ensures line[i + 1].Lit? && line[i + 1].text[0] !in DataOf(r)(line[i].field)
    {
      ApartText(line[i].field, r, line[i + 1].text[0]);
    }
  }

  lemma ApartTells(line: seq<Token>, a: RequestValues, b: RequestValues)
    requires Apart(line) && Fill(line, ALL_FIELDS, DataOf(a)) == Fill(line, ALL_FIELDS, DataOf(b))
    ensures Agree(line, DataOf(a), DataOf(b))
  {
    ApartReadable(line, a);
    ApartReadable(line, b);
    ReadBack(line, DataOf(a), DataOf(b));
  }

  lemma SameLines(lines: seq<ProgramLine>, line: ProgramLine, a: RequestValues, b: RequestValues)
    requires Render(TemplateText(lines), DataOf(a)) == Render(TemplateText(lines), DataOf(b)) && line in lines
    ensures Fill(line, ALL_FIELDS, DataOf(a)) == Fill(line, ALL_FIELDS, DataOf(b))
  {
    RenderFillsIn(lines, DataOf(a));
    RenderFillsIn(lines, DataOf(b));
  }

  lemma LineTells(lines: seq<ProgramLine>, line: ProgramLine, a: RequestValues, b: RequestValues)
    requires Render(TemplateText(lines), DataOf(a)) == Render(TemplateText(lines), DataOf(b))
    requires line in lines && Apart(line)
    ensures Agree(line, DataOf(a), DataOf(b))
  {
    SameLines(lines, line, a, b);
    ApartTells(line, a, b);
  }

  /** A line from which the given fields can be read. */
  predicate Tells(line: Line, f: Field, g: Field) { Apart(line) && Hole(f) in line && Hole(g) in line }

  /** Lines that hold everything of the device between them. */
  predicate DeviceLines(olt: Line, add: Line, name: Line, tcont: Line, inet: Line, hotspot: Line) {
    && Tells(olt, Slot, PonPort) && Tells(add, OnuId, Sn) && Tells(name, OnuName, OnuName)
    && Tells(tcont, Bandwidth, Bandwidth) && Tells(inet, VlanHsi, VlanHsi) && Tells(hotspot, VlanHot, VlanHot)
  }

  lemma NumbersTell(d1: Data, d2: Data, a: RequestValues, b: RequestValues)
    requires d1 == DataOf(a) && d2 == DataOf(b)
    requires forall f :: f in {Slot, PonPort, OnuId, Sn, OnuName, Bandwidth, VlanHsi, VlanHot} ==> d1(f) == d2(f)
    ensures SameDevice(a, b)
  {
    assert d1(Slot) == d2(Slot) && d1(PonPort) == d2(PonPort) && d1(OnuId) == d2(OnuId);
    assert d1(Sn) == d2(Sn) && d1(OnuName) == d2(OnuName) && d1(Bandwidth) == d2(Bandwidth);
    assert d1(VlanHsi) == d2(VlanHsi) && d1(VlanHot) == d2(VlanHot);
    SignedDecInjective(a.board, b.board);
    SignedDecInjective(a.pon, b.pon);
    SignedDecInjective(a.onuId, b.onuId);
    SignedDecInjective(a.vlanInternet, b.vlanInternet);
    SignedDecInjective(a.vlanHotspot, b.vlanHotspot);
  }

  lemma DeviceTold(lines: seq<ProgramLine>, olt: SharedLine, add: SharedLine, name: SharedLine, tcont: SharedLine,
                   inet: SharedLine, hotspot: SharedLine, a: RequestValues, b: RequestValues)
    requires Render(TemplateText(lines), DataOf(a)) == Render(TemplateText(lines), DataOf(b))
    requires DeviceLines(olt, add, name, tcont, inet, hotspot)
    requires olt in lines && add in lines && name in lines && tcont in lines && inet in lines && hotspot in lines
    ensures SameDevice(a, b)
  {
    LineTells(lines, olt, a, b);
    LineTells(lines, add, a, b);
    LineTells(lines, name, a, b);
    LineTells(lines, tcont, a, b);
    LineTells(lines, inet, a, b);
    LineTells(lines, hotspot, a, b);
    NumbersTell(DataOf(a), DataOf(b), a, b);
  }

  lemma OltLines()
    ensures Tells(ZTE_OLT, Slot, PonPort) && Tells(HUAWEI_OLT, Slot, PonPort)
  {
    assert ZTE_OLT[1] == Hole(Slot) && ZTE_OLT[3] == Hole(PonPort);
    assert HUAWEI_OLT[1] == Hole(Slot) && HUAWEI_OLT[3] == Hole(PonPort);
  }

  lemma AddOnuLine()
    ensures Tells(ADD_ONU, OnuId, Sn)
  {
    assert ADD_ONU[1] == Hole(OnuId) && ADD_ONU[5] == Hole(Sn);
  }

  lemma ProfileLines()
    ensures Tells(NAME, OnuName, OnuName) && Tells(TCONT_1, Bandwidth, Bandwidth)
  {
    assert NAME[1] == Hole(OnuName) && TCONT_1[1] == Hole(Bandwidth);
  }

  lemma InternetLine()
    ensures Tells(SERVICE_PORT_1, VlanHsi, VlanHsi)
  {
    assert SERVICE_PORT_1[2] == Hole(VlanHsi);
  }

  lemma HotspotLines()
    ensures Tells(SERVICE_PORT_2, VlanHot, VlanHot) && Tells(VLAN_ETH, VlanHot, VlanHot)
  {
    assert SERVICE_PORT_2[2] == Hole(VlanHot) && VLAN_ETH[2] == Hole(VlanHot);
  }

  predicate HoldsDevice(lines: seq<ProgramLine>, olt: SharedLine, hotspot: SharedLine) {
    olt in lines && ADD_ONU in lines && NAME in lines && TCONT_1 in lines && SERVICE_PORT_1 in lines && hotspot in lines
  }

  lemma ZteV2Holds()
    ensures HoldsDevice(ZTE_V2, ZTE_OLT, SERVICE_PORT_2)
  {
    assert ZTE_V2[1] == ZTE_OLT && ZTE_V2[2] == ADD_ONU && ZTE_V2[6] == NAME && ZTE_V2[7] == TCONT_1;
    assert ZTE_V2[13] == SERVICE_PORT_1 && ZTE_V2[14] == SERVICE_PORT_2;
  }

  lemma ZteLogin()
    ensures WAN in ZTE_V2 && WAN in ZTE_V1
  {
    assert ZTE_V2[21] == WAN && ZTE_V1[22] == WAN;
  }

  lemma ZteV1Holds()
    ensures HoldsDevice(ZTE_V1, ZTE_OLT, VLAN_ETH)
  {
    assert ZTE_V1[1] == ZTE_OLT && ZTE_V1[2] == ADD_ONU && ZTE_V1[5] == NAME && ZTE_V1[8] == TCONT_1;
    assert ZTE_V1[12] == SERVICE_PORT_1 && ZTE_V1[25] == VLAN_ETH;
  }

  lemma HuaweiV2Holds()
    ensures HoldsDevice(HUAWEI_V2, HUAWEI_OLT, SERVICE_PORT_2)
  {
    assert HUAWEI_V2[1] == HUAWEI_OLT && HUAWEI_V2[2] == ADD_ONU && HUAWEI_V2[6] == NAME && HUAWEI_V2[7] == TCONT_1;
    assert HUAWEI_V2[13] == SERVICE_PORT_1 && HUAWEI_V2[14] == SERVICE_PORT_2;
  }

  lemma HuaweiV1Holds()
    ensures HoldsDevice(HUAWEI_V1, HUAWEI_OLT, SERVICE_PORT_2)
  {
    assert HUAWEI_V1[1] == HUAWEI_OLT && HUAWEI_V1[2] == ADD_ONU && HUAWEI_V1[6] == NAME && HUAWEI_V1[9] == TCONT_1;
    assert HUAWEI_V1[17] == SERVICE_PORT_1 && HUAWEI_V1[18] == SERVICE_PORT_2;
  }

  lemma AllTold(lines: seq<ProgramLine>, olt: SharedLine, hotspot: SharedLine, a: RequestValues, b: RequestValues)
    requires Render(TemplateText(lines), DataOf(a)) == Render(TemplateText(lines), DataOf(b))
    requires HoldsDevice(lines, olt, hotspot)
    requires Tells(olt, Slot, PonPort) && Tells(hotspot, VlanHot, VlanHot)
    ensures SameDevice(a, b)
  {
    AddOnuLine();
    ProfileLines();
    InternetLine();
    DeviceTold(lines, olt, ADD_ONU, NAME, TCONT_1, SERVICE_PORT_1, hotspot, a, b);
  }

  lemma LoginTold(lines: seq<ProgramLine>, a: RequestValues, b: RequestValues)
    requires Render(TemplateText(lines), DataOf(a)) == Render(TemplateText(lines), DataOf(b)) && WAN in lines
    ensures LoginText(a) == LoginText(b)
  {
    SameLines(lines, WAN, a, b);
    WanTells(a, b);
  }

  lemma ZteTold(lines: seq<ProgramLine>, a: RequestValues, b: RequestValues)
    requires Render(TemplateText(lines), DataOf(a)) == Render(TemplateText(lines), DataOf(b))
    requires lines == ZTE_V2 || lines == ZTE_V1
    ensures SameDevice(a, b) && LoginText(a) == LoginText(b)
  {
    OltLines();
    HotspotLines();
    if lines == ZTE_V2 {
      ZteV2Holds();
      AllTold(lines, ZTE_OLT, SERVICE_PORT_2, a, b);
    } else {
      ZteV1Holds();
      AllTold(lines, ZTE_OLT, VLAN_ETH, a, b);
    }
    ZteLogin();
    LoginTold(lines, a, b);
  }

  lemma HuaweiTold(lines: seq<ProgramLine>, a: RequestValues, b: RequestValues)
    requires Render(TemplateText(lines), DataOf(a)) == Render(TemplateText(lines), DataOf(b))
    requires lines == HUAWEI_V2 || lines == HUAWEI_V1
    ensures SameDevice(a, b)
  {
    OltLines();
    HotspotLines();
    HuaweiV2Holds();
    HuaweiV1Holds();
    AllTold(lines, HUAWEI_OLT, SERVICE_PORT_2, a, b);
  }

  lemma CountTells(x: string, y: string)
    requires Known(x) && Known(y) && CommandCount(x) == CommandCount(y)
    ensures x == y
  {
  }

  lemma SameTemplate(a: RequestValues, b: RequestValues)
    requires Known(a.templateId) && Known(b.templateId) && GenerateCommands(a) == GenerateCommands(b)
    ensures a.templateId == b.templateId
  {
    GeneratedCount(a);
    GeneratedCount(b);
    CountTells(a.templateId, b.templateId);
  }

  lemma ZteTells(a: RequestValues, b: RequestValues)
    requires Zte(a.templateId) && a.templateId == b.templateId && GenerateCommands(a) == GenerateCommands(b)
    ensures SameUse(a, b)
  {
    ZteTold(TemplateLines(a.templateId), a, b);
  }

  lemma HuaweiTells(a: RequestValues, b: RequestValues)
    requires Huawei(a.templateId) && a.templateId == b.templateId && GenerateCommands(a) == GenerateCommands(b)
    ensures SameUse(a, b)
  {
    HuaweiTold(TemplateLines(a.templateId), a, b);
  }

  /** What the OLT is sent tells exactly what the template uses of a request: two requests turn into the
      same commands if and only if they name the same template and agree on the device and, with a ZTE
      template, on the login as printed. */
  lemma CommandsIdentifyRequest(a: RequestValues, b: RequestValues)
    requires Known(a.templateId) && Known(b.templateId)
    ensures GenerateCommands(a) == GenerateCommands(b) <==> SameUse(a, b)
  {
    if SameUse(a, b) { SameUseSame(a, b); }
    if GenerateCommands(a) == GenerateCommands(b) {
      SameTemplate(a, b);
      if Zte(a.templateId) { ZteTells(a, b); } else { HuaweiTells(a, b); }
    }
  }

  // ---- characters the commands must not hold

  ghost predicate SomeHolds(commands: seq<string>, c: char) { exists i :: 0 <= i < |commands| && c in commands[i] }

  predicate DeviceTexts(r: RequestValues, c: char) { c in r.sn || c in r.name || c in r.bandwidth }

  predicate LoginTexts(r: RequestValues, c: char) { c in r.pppoeUser || c in r.pppoePass || c in r.profileInternet }

  /** The texts that a template uses of a request. */
  predicate Carries(r: RequestValues, c: char) { DeviceTexts(r, c) || (Zte(r.templateId) && LoginTexts(r, c)) }

  lemma DeviceField(r: RequestValues, f: Field, c: char)
    requires (c == '{' || c == '\n') && f !in {PppoeUser, PppoePass, ProfileHsi, ProfileHot} && c in DataOf(r)(f)
    ensures DeviceTexts(r, c)
  {
    if f !in {Sn, OnuName, Bandwidth} { NumbersAreClean(r, c, f); }
  }

  lemma LoginField(r: RequestValues, f: Field, c: char)
    requires f in {PppoeUser, PppoePass, ProfileHsi} && c in DataOf(r)(f)
    ensures LoginTexts(r, c)
  {
  }

  lemma {:induction false} SharedFields(line: SharedLine, f: Field)
    requires Hole(f) in line
    ensures f !in {PppoeUser, PppoePass, ProfileHsi, ProfileHot}
  {
  }

  lemma {:induction false} LoginFields(line: seq<Token>, f: Field)
    requires LoginLine(line) && Hole(f) in line
    ensures f in {PppoeUser, PppoePass, ProfileHsi}
  {
  }

  lemma SharedBrings(line: SharedLine, r: RequestValues, c: char)
    requires (c == '{' || c == '\n') && Brings(line, DataOf(r), c)
    ensures DeviceTexts(r, c)
  {
    var f :| Hole(f) in line && c in DataOf(r)(f);
    SharedFields(line, f);
    DeviceField(r, f, c);
  }

  lemma LoginBrings(line: seq<Token>, r: RequestValues, c: char)
    requires LoginLine(line) && Brings(line, DataOf(r), c)
    ensures LoginTexts(r, c)
  {
    var f :| Hole(f) in line && c in DataOf(r)(f);
    LoginFields(line, f);
    LoginField(r, f, c);
  }

  lemma WanLogin()
    ensures LoginLine(WAN)
  {
  }

  lemma LineBrings(line: ProgramLine, r: RequestValues, c: char)
    requires (c == '{' || c == '\n') && Brings(line, DataOf(r), c)
    ensures DeviceTexts(r, c) || LoginTexts(r, c)
  {
    if NoLogin(line) {
      SharedBrings(line, r, c);
    } else {
      WanLogin();
      LoginBrings(line, r, c);
    }
  }

  lemma Holder(commands: seq<string>, lines: seq<Line>, data: Data, c: char) returns (i: nat)
    requires (c == '{' || c == '\n') && FilledIn(commands, lines, data) && SomeHolds(commands, c)
    ensures i < |lines| && Brings(lines[i], data, c)
  {
    i :| 0 <= i < |commands| && c in commands[i];
    FillHolds(lines[i], data, c);
  }

  lemma {:induction false} BroughtIn(commands: seq<string>, lines: seq<Line>, data: Data, c: char, line: Line, f: Field)
    requires (c == '{' || c == '\n') && FilledIn(commands, lines, data)
    requires line in lines && Hole(f) in line && c in data(f)
    ensures SomeHolds(commands, c)
  {
    var i :| 0 <= i < |lines| && lines[i] == line;
    FillHolds(line, data, c);
    assert c in commands[i];
  }

  /** The lines of a template that hold the texts of the device. */
  ghost predicate TextLines(lines: seq<Line>, add: Line, name: Line, tcont: Line) {
    && add in lines && name in lines && tcont in lines
    && Hole(Sn) in add && Hole(OnuName) in name && Hole(Bandwidth) in tcont
  }

  lemma {:induction false} DeviceBrought(commands: seq<string>, lines: seq<Line>, add: Line, name: Line, tcont: Line,
                                         r: RequestValues, c: char)
    requires (c == '{' || c == '\n') && FilledIn(commands, lines, DataOf(r)) && DeviceTexts(r, c)
    requires TextLines(lines, add, name, tcont)
    ensures SomeHolds(commands, c)
  {
    if c in r.sn {
      BroughtIn(commands, lines, DataOf(r), c, add, Sn);
    } else if c in r.name {
      BroughtIn(commands, lines, DataOf(r), c, name, OnuName);
    } else {
      BroughtIn(commands, lines, DataOf(r), c, tcont, Bandwidth);
    }
  }

  lemma HeldTexts(lines: seq<ProgramLine>, olt: SharedLine, hotspot: SharedLine)
    requires HoldsDevice(lines, olt, hotspot)
    ensures TextLines(lines, ADD_ONU, NAME, TCONT_1)
  {
    AddOnuLine();
    ProfileLines();
  }

  lemma LoginBrought(commands: seq<string>, lines: seq<Line>, line: Line, r: RequestValues, c: char)
    requires (c == '{' || c == '\n') && FilledIn(commands, lines, DataOf(r)) && LoginTexts(r, c)
    requires LoginLine(line) && line in lines
    ensures SomeHolds(commands, c)
  {
    assert line[1] == Hole(PppoeUser) && line[3] == Hole(PppoePass) && line[5] == Hole(ProfileHsi);
    if c in r.pppoeUser {
      BroughtIn(commands, lines, DataOf(r), c, line, PppoeUser);
    } else if c in r.pppoePass {
      BroughtIn(commands, lines, DataOf(r), c, line, PppoePass);
    } else {
      BroughtIn(commands, lines, DataOf(r), c, line, ProfileHsi);
    }
  }

  lemma ZteCarry(commands: seq<string>, lines: seq<ProgramLine>, add: Line, name: Line, tcont: Line, wan: Line,
                 r: RequestValues, c: char)
    requires (c == '{' || c == '\n') && FilledIn(commands, lines, DataOf(r))
    requires TextLines(lines, add, name, tcont) && LoginLine(wan) && wan in lines
    ensures SomeHolds(commands, c) <==> DeviceTexts(r, c) || LoginTexts(r, c)
  {
    if SomeHolds(commands, c) {
      var i := Holder(commands, lines, DataOf(r), c);
      LineBrings(lines[i], r, c);
    }
    if DeviceTexts(r, c) { DeviceBrought(commands, lines, add, name, tcont, r, c); }
    if LoginTexts(r, c) { LoginBrought(commands, lines, wan, r, c); }
  }

  lemma HuaweiCarry(commands: seq<string>, lines: seq<SharedLine>, add: Line, name: Line, tcont: Line, r: RequestValues,
                    c: char)
    requires (c == '{' || c == '\n') && FilledIn(commands, lines, DataOf(r)) && TextLines(lines, add, name, tcont)
    ensures SomeHolds(commands, c) <==> DeviceTexts(r, c)
  {
    if SomeHolds(commands, c) {
      var i := Holder(commands, lines, DataOf(r), c);
      SharedBrings(lines[i], r, c);
    }
    if DeviceTexts(r, c) { DeviceBrought(commands, lines, add, name, tcont, r, c); }
  }

  lemma ZteHeld(lines: seq<ProgramLine>)
    requires lines == ZTE_V2 || lines == ZTE_V1
    ensures TextLines(lines, ADD_ONU, NAME, TCONT_1) && LoginLine(WAN) && WAN in lines
  {
    ZteLogin();
    WanLogin();
    if lines == ZTE_V2 {
      ZteV2Holds();
      HeldTexts(lines, ZTE_OLT, SERVICE_PORT_2);
    } else {
      ZteV1Holds();
      HeldTexts(lines, ZTE_OLT, VLAN_ETH);
    }
  }

  lemma HuaweiHeld(lines: seq<SharedLine>)
    requires lines == HUAWEI_V2 || lines == HUAWEI_V1
    ensures TextLines(lines, ADD_ONU, NAME, TCONT_1)
  {
    HuaweiV2Holds();
    HuaweiV1Holds();
    HeldTexts(lines, HUAWEI_OLT, SERVICE_PORT_2);
  }

  lemma ZteCommandsCarry(r: RequestValues, commands: seq<string>, lines: seq<ProgramLine>, c: char)
    requires (c == '{' || c == '\n') && FilledIn(commands, lines, DataOf(r)) && (lines == ZTE_V2 || lines == ZTE_V1)
    ensures SomeHolds(commands, c) <==> DeviceTexts(r, c) || LoginTexts(r, c)
  {
    ZteHeld(lines);
    ZteCarry(commands, lines, ADD_ONU, NAME, TCONT_1, WAN, r, c);
  }

  lemma HuaweiCommandsCarry(r: RequestValues, commands: seq<string>, lines: seq<SharedLine>, c: char)
    requires (c == '{' || c == '\n') && FilledIn(commands, lines, DataOf(r)) && (lines == HUAWEI_V2 || lines == HUAWEI_V1)
    ensures SomeHolds(commands, c) <==> DeviceTexts(r, c)
  {
    HuaweiHeld(lines);
    HuaweiCarry(commands, lines, ADD_ONU, NAME, TCONT_1, r, c);
  }

  /** Some command holds a brace or a line break exactly when a text that the template uses holds one. */
  lemma CommandsCarry(r: RequestValues, c: char)
    requires Known(r.templateId) && (c == '{' || c == '\n')
    ensures GenerateCommands(r).Some?
    ensures SomeHolds(GenerateCommands(r).value, c) <==> Carries(r, c)
  {
    GeneratedCommands(r);
    if Zte(r.templateId) {
      ZteCommandsCarry(r, GenerateCommands(r).value, TemplateLines(r.templateId), c);
    } else {
      var lines := HuaweiLines(r.templateId);
      HuaweiCommandsCarry(r, GenerateCommands(r).value, lines, c);
    }
  }

  // ---- managing the ONU

  const MNG := "pon-onu-mng"

  lemma ManagementText()
    ensures ZTE_MNG[0].Lit? && MNG <= ZTE_MNG[0].text && HUAWEI_MNG[0].Lit? && MNG <= HUAWEI_MNG[0].text
    ensures MNG != "" && Trimmed(MNG)
  {
  }

  lemma ManagementLine(id: string) returns (i: nat)
    requires Known(id)
    ensures i < |TemplateLines(id)| && TemplateLines(id)[i] in {ZTE_MNG, HUAWEI_MNG}
  {
    i := if id == "zte_v2" || id == "huawei_v2" then 18 else 20;
  }

  lemma ManagementStarts(commands: seq<string>, lines: seq<ProgramLine>, data: Data, i: nat, p: string)
    requires FilledIn(commands, lines, data) && i < |lines|
    requires lines[i][0].Lit? && p <= lines[i][0].text && p != "" && Trimmed(p)
    ensures HasPrefix(TrimSpace(commands[i]), p)
  {
    LitFirst(lines[i], data);
    assert p + commands[i][|p|..] == commands[i];
    TrimKeepsStart(p, commands[i][|p|..]);
  }

  lemma ManagementAt(id: string) returns (i: nat)
    requires Known(id)
    ensures i < |TemplateLines(id)| && TemplateLines(id)[i][0].Lit? && MNG <= TemplateLines(id)[i][0].text
  {
    i := ManagementLine(id);
    ManagementText();
  }

  /** Every template enters the ONU's management. */
  lemma CommandsManage(r: RequestValues) returns (i: nat)
    requires Known(r.templateId)
    ensures GenerateCommands(r).Some? && i < |GenerateCommands(r).value|
    ensures HasPrefix(TrimSpace(GenerateCommands(r).value[i]), MNG)
  {
    GeneratedCommands(r);
    i := ManagementAt(r.templateId);
    ManagementText();
    ManagementStarts(GenerateCommands(r).value, TemplateLines(r.templateId), DataOf(r), i, MNG);
  }

  // ---- logins that print alike

  /** User names and passwords without spaces can be read back from the login line. */
  lemma LoginReadBack(a: RequestValues, b: RequestValues)
    requires ' ' !in a.pppoeUser && ' ' !in b.pppoeUser && ' ' !in a.pppoePass && ' ' !in b.pppoePass
    ensures LoginText(a) == LoginText(b) <==>
            a.pppoeUser == b.pppoeUser && a.pppoePass == b.pppoePass && a.profileInternet == b.profileInternet
  {
    if LoginText(a) == LoginText(b) { LoginSplit(a, b, " password ", " vlan-profile "); }
  }

  lemma SpaceCut(u: string, v: string, x: string, r: string, t: string)
    requires x != "" && x[0] !in u && x[0] !in v && u + (x + r) == v + (x + t)
    ensures u == v && r == t
  {
    assert x + r == [x[0]] + (x[1..] + r) && x + t == [x[0]] + (x[1..] + t);
    CutEqual(u, v, x[0], x[1..] + r, x[1..] + t);
    SameAfter(u, x + r, x + t);
    SameAfter(x, r, t);
  }

  lemma LoginSplit(a: RequestValues, b: RequestValues, x: string, y: string)
    requires x != "" && x[0] == ' ' && y != "" && y[0] == ' '
    requires ' ' !in a.pppoeUser && ' ' !in b.pppoeUser && ' ' !in a.pppoePass && ' ' !in b.pppoePass
    requires LoginWith(a, x, y) == LoginWith(b, x, y)
    ensures a.pppoeUser == b.pppoeUser && a.pppoePass == b.pppoePass && a.profileInternet == b.profileInternet
  {
    SpaceCut(a.pppoeUser, b.pppoeUser, x, a.pppoePass + (y + a.profileInternet), b.pppoePass + (y + b.profileInternet));
    SpaceCut(a.pppoePass, b.pppoePass, y, a.profileInternet, b.profileInternet);
  }

  function WithLogin(r: RequestValues, password: string, profile: string): RequestValues {
    r.(pppoePass := password, profileInternet := profile)
  }

  lemma LoginMoves(r: RequestValues, x: string, y: string, p: string, v: string, w: string)
    ensures LoginWith(WithLogin(r, p + y + v, w), x, y) == LoginWith(WithLogin(r, p, v + y + w), x, y)
  {
    assert p + y + v + (y + w) == p + (y + (v + y + w));
  }

  lemma LoginsSameUse(r: RequestValues, p: string, v: string, w: string)
    ensures SameUse(WithLogin(r, p + " vlan-profile " + v, w), WithLogin(r, p, v + " vlan-profile " + w))
  {
    LoginMoves(r, " password ", " vlan-profile ", p, v, w);
  }

  /** With spaces they cannot: a password may take over what belongs to the profile, and no command shows
      it. */
  lemma LoginsAlike(r: RequestValues, p: string, v: string, w: string)
    requires Known(r.templateId)
    ensures GenerateCommands(WithLogin(r, p + " vlan-profile " + v, w))
         == GenerateCommands(WithLogin(r, p, v + " vlan-profile " + w))
  {
    LoginsSameUse(r, p, v, w);
    SameUseSame(WithLogin(r, p + " vlan-profile " + v, w), WithLogin(r, p, v + " vlan-profile " + w));
  }
}
