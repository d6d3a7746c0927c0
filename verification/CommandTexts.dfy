/** The commands of a request as texts: where each of its values goes, and how the scan for used ONU IDs
    reads the line that enters the ONU. */
module CommandTexts {
  import opened Text
  import opened Decimal
  import opened Templates
  import opened Rendering
  import opened ProgramTemplates
  import opened Commands
  import OnuIds

  function PortText(r: RequestValues): string { SignedDec(r.board) + ("/" + SignedDec(r.pon)) }

  function OnuText(r: RequestValues): string {
    SignedDec(r.board) + ("/" + (SignedDec(r.pon) + (":" + SignedDec(r.onuId))))
  }

  function OltCommand(r: RequestValues): string {
    (if Zte(r.templateId) then "interface gpon-olt_1/" else "interface gpon-olt_") + PortText(r)
  }

  function OnuCommand(r: RequestValues): string {
    (if Zte(r.templateId) then "interface gpon-onu_1/" else "interface gpon-onu_") + OnuText(r)
  }

  function ManageCommand(r: RequestValues): string {
    (if Zte(r.templateId) then "pon-onu-mng gpon-onu_1/" else "pon-onu-mng gpon-onu_") + OnuText(r)
  }

  function AddCommand(r: RequestValues): string {
    "onu " + (SignedDec(r.onuId) + (" type " + ((if Zte(r.templateId) then "ZTE-F609" else "HG8245H") + (" sn " + r.sn))))
  }

  function InternetCommand(r: RequestValues): string {
    "service-port 1 vport 1" + (" user-vlan " + (SignedDec(r.vlanInternet) + (" vlan " + SignedDec(r.vlanInternet))))
  }

  function HotspotCommand(r: RequestValues): string {
    if r.templateId == "zte_v1" then "vlan port eth_0/4" + (" mode tag vlan " + SignedDec(r.vlanHotspot))
    else "service-port 2 vport 2" + (" user-vlan " + (SignedDec(r.vlanHotspot) + (" vlan " + SignedDec(r.vlanHotspot))))
  }

  function LoginCommand(r: RequestValues): string {
    "wan-ip 1 mode pppoe username " + ((r.pppoeUser + (" password " + (r.pppoePass + (" vlan-profile " + r.profileInternet)))) + " host 1")
  }

  // ---- the lines that carry them

  lemma FieldLast(line: seq<Token>, data: Data)
    requires |line| == 1 && line[0].Hole?
    ensures Fill(line, ALL_FIELDS, data) == data(line[0].field)
  {
    HoleFirst(line, data);
    assert Fill(line[1..], ALL_FIELDS, data) == "";
  }

  /** A text and a field. */
  lemma OneField(line: seq<Token>, data: Data)
    requires |line| == 2 && line[0].Lit? && line[1].Hole?
    ensures Fill(line, ALL_FIELDS, data) == line[0].text + data(line[1].field)
  {
    LitFirst(line, data);
    FieldLast(line[1..], data);
  }

  /** A text, a field, a text and a field. */
  lemma TwoFields(line: seq<Token>, data: Data)
    requires |line| == 4 && line[0].Lit? && line[1].Hole? && line[2].Lit? && line[3].Hole?
    ensures Fill(line, ALL_FIELDS, data) == line[0].text + (data(line[1].field) + (line[2].text + data(line[3].field)))
  {
    LitFirst(line, data);
    HoleLit(line[1..], data);
    assert line[1..][2..] == line[3..];
    FieldLast(line[3..], data);
  }

  lemma ThreeMore(line: seq<Token>, data: Data)
    requires |line| == 6 && line[0].Lit? && line[1].Hole? && line[2].Lit? && line[3].Hole? && line[4].Lit? && line[5].Hole?
    ensures Fill(line, ALL_FIELDS, data)
            == line[0].text + (data(line[1].field) + (line[2].text + (data(line[3].field) + (line[4].text + data(line[5].field)))))
  {
    LitFirst(line, data);
    HoleLit(line[1..], data);
    assert line[1..][2..] == line[3..];
    HoleLit(line[3..], data);
    assert line[3..][2..] == line[5..];
    FieldLast(line[5..], data);
  }

  lemma OltLine(line: seq<Token>, r: RequestValues)
    requires |line| == 4 && line[0].Lit? && line[1] == Hole(Slot) && line[2] == Lit("/") && line[3] == Hole(PonPort)
    ensures Fill(line, ALL_FIELDS, DataOf(r)) == line[0].text + PortText(r)
  {
    TwoFields(line, DataOf(r));
  }

  lemma OnuLine(line: seq<Token>, r: RequestValues)
    requires |line| == 6 && line[0].Lit? && line[1] == Hole(Slot) && line[2] == Lit("/") && line[3] == Hole(PonPort)
    requires line[4] == Lit(":") && line[5] == Hole(OnuId)
    ensures Fill(line, ALL_FIELDS, DataOf(r)) == line[0].text + OnuText(r)
  {
    ThreeMore(line, DataOf(r));
  }

  lemma VlanLine(line: seq<Token>, data: Data)
    requires |line| == 5 && line[0].Lit? && line[1].Lit? && line[2].Hole? && line[3].Lit? && line[4].Hole?
    ensures Fill(line, ALL_FIELDS, data)
            == line[0].text + (line[1].text + (data(line[2].field) + (line[3].text + data(line[4].field))))
  {
    LitFirst(line, data);
    TwoFields(line[1..], data);
  }

  lemma EthLine(line: seq<Token>, data: Data)
    requires |line| == 3 && line[0].Lit? && line[1].Lit? && line[2].Hole?
    ensures Fill(line, ALL_FIELDS, data) == line[0].text + (line[1].text + data(line[2].field))
  {
    LitFirst(line, data);
    OneField(line[1..], data);
  }

  lemma OltText(r: RequestValues)
    requires Known(r.templateId)
    ensures Fill(if Zte(r.templateId) then ZTE_OLT else HUAWEI_OLT, ALL_FIELDS, DataOf(r)) == OltCommand(r)
  {
    OltLine(ZTE_OLT, r);
    OltLine(HUAWEI_OLT, r);
  }

  lemma EnterText(r: RequestValues)
    requires Known(r.templateId)
    ensures Fill(if Zte(r.templateId) then ZTE_ONU else HUAWEI_ONU, ALL_FIELDS, DataOf(r)) == OnuCommand(r)
  {
    OnuLine(ZTE_ONU, r);
    OnuLine(HUAWEI_ONU, r);
  }

  lemma ManageText(r: RequestValues)
    requires Known(r.templateId)
    ensures Fill(if Zte(r.templateId) then ZTE_MNG else HUAWEI_MNG, ALL_FIELDS, DataOf(r)) == ManageCommand(r)
  {
    OnuLine(ZTE_MNG, r);
    OnuLine(HUAWEI_MNG, r);
  }

  lemma TypeText(templateId: string)
    requires Known(templateId)
    ensures DefaultOnuType(templateId) == if Zte(templateId) then "ZTE-F609" else "HG8245H"
  {
    if Zte(templateId) { assert templateId[0] == 'z'; }
    if templateId == "huawei_v2" { assert "huawei_" <= templateId; }
    if templateId == "huawei_v1" { assert "huawei_" <= templateId; }
  }

  lemma AddText(r: RequestValues)
    requires Known(r.templateId)
    ensures Fill(ADD_ONU, ALL_FIELDS, DataOf(r)) == AddCommand(r)
  {
    ThreeMore(ADD_ONU, DataOf(r));
    TypeText(r.templateId);
  }

  lemma NameText(r: RequestValues)
    ensures Fill(NAME, ALL_FIELDS, DataOf(r)) == "name " + r.name
  {
    OneField(NAME, DataOf(r));
  }

  lemma BandwidthText(r: RequestValues)
    ensures Fill(TCONT_1, ALL_FIELDS, DataOf(r)) == "tcont 1 name INET1 profile " + r.bandwidth
  {
    OneField(TCONT_1, DataOf(r));
  }

  lemma InternetText(r: RequestValues)
    ensures Fill(SERVICE_PORT_1, ALL_FIELDS, DataOf(r)) == InternetCommand(r)
  {
    VlanLine(SERVICE_PORT_1, DataOf(r));
  }

  lemma HotspotText(r: RequestValues)
    ensures Fill(if r.templateId == "zte_v1" then VLAN_ETH else SERVICE_PORT_2, ALL_FIELDS, DataOf(r)) == HotspotCommand(r)
  {
    VlanLine(SERVICE_PORT_2, DataOf(r));
    EthLine(VLAN_ETH, DataOf(r));
  }

  lemma LoginCommandText(r: RequestValues)
    ensures Fill(WAN, ALL_FIELDS, DataOf(r)) == LoginCommand(r)
  {
    WanLogin();
    LoginFill(WAN, r);
  }

  // ---- where they stand

  lemma EntersZteV2()
    ensures ZTE_ONU in ZTE_V2 && ZTE_MNG in ZTE_V2
  {
    assert ZTE_V2[4] == ZTE_ONU && ZTE_V2[18] == ZTE_MNG;
  }

  lemma EntersZteV1()
    ensures ZTE_ONU in ZTE_V1 && ZTE_MNG in ZTE_V1
  {
    assert ZTE_V1[4] == ZTE_ONU && ZTE_V1[20] == ZTE_MNG;
  }

  lemma EntersHuawei()
    ensures HUAWEI_ONU in HUAWEI_V2 && HUAWEI_MNG in HUAWEI_V2 && HUAWEI_ONU in HUAWEI_V1 && HUAWEI_MNG in HUAWEI_V1
  {
    assert HUAWEI_V2[4] == HUAWEI_ONU && HUAWEI_V2[18] == HUAWEI_MNG;
    assert HUAWEI_V1[5] == HUAWEI_ONU && HUAWEI_V1[20] == HUAWEI_MNG;
  }

  /** The lines of a template that a request's values are read from. */
  ghost predicate ValueLines(lines: seq<Line>, olt: Line, onu: Line, mng: Line, hotspot: Line) {
    && olt in lines && onu in lines && mng in lines && hotspot in lines
    && ADD_ONU in lines && NAME in lines && TCONT_1 in lines && SERVICE_PORT_1 in lines
  }

  lemma ZteV2Lines()
    ensures ValueLines(ZTE_V2, ZTE_OLT, ZTE_ONU, ZTE_MNG, SERVICE_PORT_2)
  {
    ZteV2Holds();
    EntersZteV2();
  }

  lemma ZteV1Lines()
    ensures ValueLines(ZTE_V1, ZTE_OLT, ZTE_ONU, ZTE_MNG, VLAN_ETH)
  {
    ZteV1Holds();
    EntersZteV1();
  }

  lemma HuaweiV2Lines()
    ensures ValueLines(HUAWEI_V2, HUAWEI_OLT, HUAWEI_ONU, HUAWEI_MNG, SERVICE_PORT_2)
  {
    HuaweiV2Holds();
    EntersHuawei();
  }

  lemma HuaweiV1Lines()
    ensures ValueLines(HUAWEI_V1, HUAWEI_OLT, HUAWEI_ONU, HUAWEI_MNG, SERVICE_PORT_2)
  {
    HuaweiV1Holds();
    EntersHuawei();
  }

  lemma LineThere(commands: seq<string>, lines: seq<Line>, line: Line, data: Data)
    requires FilledIn(commands, lines, data) && line in lines
    ensures Fill(line, ALL_FIELDS, data) in commands
  {
    var i :| 0 <= i < |lines| && lines[i] == line;
    assert commands[i] == Fill(line, ALL_FIELDS, data);
  }

  lemma LinesThere(commands: seq<string>, lines: seq<Line>, r: RequestValues, olt: Line, onu: Line, mng: Line, hotspot: Line)
    requires FilledIn(commands, lines, DataOf(r)) && ValueLines(lines, olt, onu, mng, hotspot)
    ensures Fill(olt, ALL_FIELDS, DataOf(r)) in commands && Fill(onu, ALL_FIELDS, DataOf(r)) in commands
    ensures Fill(mng, ALL_FIELDS, DataOf(r)) in commands && Fill(hotspot, ALL_FIELDS, DataOf(r)) in commands
    ensures Fill(ADD_ONU, ALL_FIELDS, DataOf(r)) in commands && Fill(NAME, ALL_FIELDS, DataOf(r)) in commands
    ensures Fill(TCONT_1, ALL_FIELDS, DataOf(r)) in commands && Fill(SERVICE_PORT_1, ALL_FIELDS, DataOf(r)) in commands
  {
    var data := DataOf(r);
    LineThere(commands, lines, olt, data);
    LineThere(commands, lines, onu, data);
    LineThere(commands, lines, mng, data);
    LineThere(commands, lines, hotspot, data);
    LineThere(commands, lines, ADD_ONU, data);
    LineThere(commands, lines, NAME, data);
    LineThere(commands, lines, TCONT_1, data);
    LineThere(commands, lines, SERVICE_PORT_1, data);
  }

  ghost predicate DeviceSays(commands: seq<string>, r: RequestValues) {
    && OltCommand(r) in commands && OnuCommand(r) in commands && ManageCommand(r) in commands
    && AddCommand(r) in commands && "name " + r.name in commands && "tcont 1 name INET1 profile " + r.bandwidth in commands
    && InternetCommand(r) in commands && HotspotCommand(r) in commands
  }

  /** Every value of a request in its place. */
  ghost predicate Says(commands: seq<string>, r: RequestValues) {
    DeviceSays(commands, r) && (Zte(r.templateId) ==> LoginCommand(r) in commands)
  }

  lemma DeviceTextsSay(commands: seq<string>, lines: seq<Line>, r: RequestValues, olt: Line, onu: Line, mng: Line, hotspot: Line)
    requires Known(r.templateId) && FilledIn(commands, lines, DataOf(r)) && ValueLines(lines, olt, onu, mng, hotspot)
    requires Fill(olt, ALL_FIELDS, DataOf(r)) == OltCommand(r) && Fill(onu, ALL_FIELDS, DataOf(r)) == OnuCommand(r)
    requires Fill(mng, ALL_FIELDS, DataOf(r)) == ManageCommand(r) && Fill(hotspot, ALL_FIELDS, DataOf(r)) == HotspotCommand(r)
    ensures DeviceSays(commands, r)
  {
    LinesThere(commands, lines, r, olt, onu, mng, hotspot);
    AddText(r);
    NameText(r);
    BandwidthText(r);
    InternetText(r);
  }

  lemma ZteSays(commands: seq<string>, lines: seq<Line>, r: RequestValues, hotspot: Line)
    requires Zte(r.templateId) && FilledIn(commands, lines, DataOf(r))
    requires ValueLines(lines, ZTE_OLT, ZTE_ONU, ZTE_MNG, hotspot) && WAN in lines
    requires hotspot == if r.templateId == "zte_v1" then VLAN_ETH else SERVICE_PORT_2
    ensures DeviceSays(commands, r) && LoginCommand(r) in commands
  {
    OltText(r);
    EnterText(r);
    ManageText(r);
    HotspotText(r);
    DeviceTextsSay(commands, lines, r, ZTE_OLT, ZTE_ONU, ZTE_MNG, hotspot);
    LineThere(commands, lines, WAN, DataOf(r));
    LoginCommandText(r);
  }

  lemma HuaweiSays(commands: seq<string>, lines: seq<Line>, r: RequestValues)
    requires Huawei(r.templateId) && FilledIn(commands, lines, DataOf(r))
    requires ValueLines(lines, HUAWEI_OLT, HUAWEI_ONU, HUAWEI_MNG, SERVICE_PORT_2)
    ensures DeviceSays(commands, r)
  {
    OltText(r);
    EnterText(r);
    ManageText(r);
    HotspotText(r);
    DeviceTextsSay(commands, lines, r, HUAWEI_OLT, HUAWEI_ONU, HUAWEI_MNG, SERVICE_PORT_2);
  }

  lemma LinesSay(commands: seq<string>, lines: seq<ProgramLine>, r: RequestValues)
    requires FilledIn(commands, lines, DataOf(r)) && Known(r.templateId)
    requires r.templateId == "zte_v2" ==> lines == ZTE_V2
    requires r.templateId == "zte_v1" ==> lines == ZTE_V1
    requires r.templateId == "huawei_v2" ==> lines == HUAWEI_V2
    requires r.templateId == "huawei_v1" ==> lines == HUAWEI_V1
    ensures Says(commands, r)
  {
    ZteLogin();
    ZteV2Lines();
    ZteV1Lines();
    HuaweiV2Lines();
    HuaweiV1Lines();
    if r.templateId == "zte_v2" {
      ZteSays(commands, lines, r, SERVICE_PORT_2);
    } else if r.templateId == "zte_v1" {
      ZteSays(commands, lines, r, VLAN_ETH);
    } else {
      HuaweiSays(commands, lines, r);
    }
  }

  /** Under every template each value of the request stands in the command it belongs to: board, PON and ONU
      ID in the lines that enter the OLT's interface and the ONU's, serial number and type in the line that
      registers it, and name, bandwidth, both VLANs and the login in theirs. */
  lemma CommandsSay(r: RequestValues)
    requires Known(r.templateId)
    ensures GenerateCommands(r).Some? && Says(GenerateCommands(r).value, r)
  {
    GeneratedCommands(r);
    LinesSay(GenerateCommands(r).value, TemplateLines(r.templateId), r);
  }

  // ---- read by the scan for used IDs

  /** A text that ends in an interface name. */
  lemma {:induction false} NameFound(head: string, row: OnuIds.Row, board: int, pon: int)
    requires 'g' !in head && row.tail == ""
    ensures OnuIds.FindAll(head + OnuIds.RowText(row), board, pon)
            == if row.board == board && row.pon == pon then [Dec(row.id)] else []
  {
    var text := OnuIds.RowText(row);
    OnuIds.SkipNoG(head, text, board, pon);
    OnuIds.BareRow(row, board, pon);
  }

  lemma Headed(h: string, k: string, d: string, b: string, p: string, id: string)
    ensures (h + (k + (d + "/"))) + (b + ("/" + (p + (":" + id)))) == h + (k + (d + ("/" + b + "/" + p + ":" + (id + ""))))
  {
    assert id + "" == id;
    assert "/" + b + "/" + p + ":" + id == "/" + (b + ("/" + (p + (":" + id))));
  }

  lemma Heads()
    ensures "interface gpon-onu_1/" == "interface " + (OnuIds.MARK + (Dec(1) + "/")) && 'g' !in "interface "
    ensures "interface gpon-onu_" == "interface " + OnuIds.MARK
  {
  }

  /** The row of a printed table that a ZTE line reads like. */
  function AsRow(r: RequestValues): OnuIds.Row
    requires r.onuId >= 0
  {
    OnuIds.Row(1, r.board, r.pon, r.onuId, "")
  }

  lemma ZteLineIsRow(r: RequestValues)
    requires Zte(r.templateId) && r.onuId >= 0
    ensures OnuCommand(r) == "interface " + OnuIds.RowText(AsRow(r))
  {
    Heads();
    Headed("interface ", OnuIds.MARK, Dec(1), SignedDec(r.board), SignedDec(r.pon), SignedDec(r.onuId));
  }

  lemma SecondSlash(board: int, pon: int)
    ensures var part, i := OnuIds.PonPart(board, pon), 1 + |SignedDec(board)|; i < |part| && part[i] == '/'
  {
    var b := SignedDec(board);
    assert OnuIds.PonPart(board, pon) == "/" + b + ("/" + SignedDec(pon) + ":");
    assert |"/" + b| == 1 + |b|;
  }

  lemma PrefixChar(p: string, s: string, i: int)
    requires 0 < i < |p|
    ensures p <= s ==> p[i] in s[1..]
  {
    if p <= s { assert s[1..][i - 1] == p[i]; }
  }

  lemma NoSecondSlash(board: int, pon: int, text: string)
    requires '/' !in text
    ensures !(OnuIds.PonPart(board, pon) <= "/" + text)
  {
    SecondSlash(board, pon);
    assert ("/" + text)[1..] == text;
    PrefixChar(OnuIds.PonPart(board, pon), "/" + text, 1 + |SignedDec(board)|);
  }

  /** A Huawei name has one number less than the pattern asks for. */
  lemma HuaweiNoMatch(r: RequestValues, board: int, pon: int)
    ensures OnuIds.MatchAt(OnuIds.MARK + OnuText(r), board, pon) == None
  {
    var rest := SignedDec(r.pon) + (":" + SignedDec(r.onuId));
    var s := OnuIds.MARK + OnuText(r);
    SignedDecChars(r.pon);
    SignedDecChars(r.onuId);
    NoSecondSlash(board, pon, rest);
    assert s[|OnuIds.MARK|..] == SignedDec(r.board) + ("/" + rest);
    if r.board >= 0 {
      OnuIds.LeadingDigitsOf(Dec(r.board), "/" + rest);
      assert (Dec(r.board) + ("/" + rest))[|Dec(r.board)|..] == "/" + rest;
    }
  }

  lemma OnuTextNoG(r: RequestValues)
    ensures 'g' !in OnuText(r)
  {
    SignedDecChars(r.board);
    SignedDecChars(r.pon);
    SignedDecChars(r.onuId);
  }

  lemma NothingLater(s: string, board: int, pon: int)
    requires s != "" && OnuIds.MatchAt(s, board, pon) == None && 'g' !in s[1..]
    ensures OnuIds.FindAll(s, board, pon) == []
  {
    OnuIds.SkipNoG(s[1..], "", board, pon);
    assert s[1..] + "" == s[1..];
    assert OnuIds.FindAll("", board, pon) == [];
  }

  lemma HuaweiNotFound(r: RequestValues, board: int, pon: int)
    ensures OnuIds.FindAll(OnuIds.MARK + OnuText(r), board, pon) == []
  {
    OnuIds.MarkChars();
    OnuTextNoG(r);
    HuaweiNoMatch(r, board, pon);
    HeadAndTail(OnuIds.MARK, OnuText(r));
    NothingLater(OnuIds.MARK + OnuText(r), board, pon);
  }

  /** The line that enters a ZTE ONU, scanned for the used IDs of a board and PON, gives exactly the request's
      ID on the request's own board and PON and nothing elsewhere; a Huawei line gives nothing anywhere. */
  lemma EnteredOnuFound(r: RequestValues, board: int, pon: int)
    requires Known(r.templateId) && r.onuId >= 0
    ensures OnuIds.FindAll(OnuCommand(r), board, pon)
            == if Zte(r.templateId) && board == r.board && pon == r.pon then [SignedDec(r.onuId)] else []
  {
    Heads();
    if Zte(r.templateId) {
      ZteLineIsRow(r);
      NameFound("interface ", AsRow(r), board, pon);
    } else {
      assert OnuCommand(r) == "interface " + (OnuIds.MARK + OnuText(r));
      OnuIds.SkipNoG("interface ", OnuIds.MARK + OnuText(r), board, pon);
      HuaweiNotFound(r, board, pon);
    }
  }
}
