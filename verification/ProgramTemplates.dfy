/** The four provisioning templates of the program, line by line. */
module ProgramTemplates {
  import opened Text
  import opened Templates
  import opened Rendering

  /** A line with nothing of the PPPoE login and without the hotspot profile. */
  predicate NoLogin(line: seq<Token>) {
    && Hole(PppoeUser) !in line && Hole(PppoePass) !in line && Hole(ProfileHsi) !in line
    && Hole(ProfileHot) !in line
  }

  type SharedLine = l: Line | NoLogin(l) witness [Hole(Slot)]

  const WAN: Line :=
    [Lit("wan-ip 1 mode pppoe username "), Hole(PppoeUser), Lit(" password "), Hole(PppoePass),
     Lit(" vlan-profile "), Hole(ProfileHsi), Lit(" host 1")]

  /** One line of the ZTE templates holds the login; no line holds the hotspot profile. */
  type ProgramLine = l: Line | NoLogin(l) || l == WAN witness [Hole(Slot)]

  const CONF_T: SharedLine := [Lit("conf t")]
  const EXIT: SharedLine := [Lit("exit")]
  const END: SharedLine := [Lit("end")]
  const WRITE: SharedLine := [Lit("write")]
  const ZTE_OLT: SharedLine := [Lit("interface gpon-olt_1/"), Hole(Slot), Lit("/"), Hole(PonPort)]
  const HUAWEI_OLT: SharedLine := [Lit("interface gpon-olt_"), Hole(Slot), Lit("/"), Hole(PonPort)]
  const ADD_ONU: SharedLine := [Lit("onu "), Hole(OnuId), Lit(" type "), Hole(OnuType), Lit(" sn "), Hole(Sn)]
  const ZTE_ONU: SharedLine := [Lit("interface gpon-onu_1/"), Hole(Slot), Lit("/"), Hole(PonPort), Lit(":"), Hole(OnuId)]
  const HUAWEI_ONU: SharedLine := [Lit("interface gpon-onu_"), Hole(Slot), Lit("/"), Hole(PonPort), Lit(":"), Hole(OnuId)]
  const ZTE_MNG: SharedLine := [Lit("pon-onu-mng gpon-onu_1/"), Hole(Slot), Lit("/"), Hole(PonPort), Lit(":"), Hole(OnuId)]
  const HUAWEI_MNG: SharedLine := [Lit("pon-onu-mng gpon-onu_"), Hole(Slot), Lit("/"), Hole(PonPort), Lit(":"), Hole(OnuId)]
  const BIND: SharedLine := [Lit("sn-bind enable sn")]
  const NAME: SharedLine := [Lit("name "), Hole(OnuName)]
  const DESCRIPTION: SharedLine := [Lit("description "), Hole(OnuName)]
  const DESCRIPTION_NAME: SharedLine := [Lit("description name "), Hole(OnuName)]
  const TCONT_1: SharedLine := [Lit("tcont 1 name INET1 profile "), Hole(Bandwidth)]
  const TCONT_2: SharedLine := [Lit("tcont 2 name HOTSPOT profile "), Hole(Bandwidth)]
  const UNICAST_1: SharedLine := [Lit("gemport 1 name INET1"), Lit(" unicast tcont 1 dir both")]
  const UNICAST_2: SharedLine := [Lit("gemport 2 name HOTSPOT"), Lit(" unicast tcont 2 dir both")]
  const GEMPORT_1: SharedLine := [Lit("gemport 1 name INET1 tcont 1")]
  const GEMPORT_2: SharedLine := [Lit("gemport 2 name HOTSPOT tcont 2")]
  const LIMIT_1: SharedLine := [Lit("gemport 1 traffic-limit"), Lit(" upstream UP"), Hole(Bandwidth), Lit(" downstream DW"), Hole(Bandwidth)]
  const LIMIT_2: SharedLine := [Lit("gemport 2 traffic-limit"), Lit(" upstream UP"), Hole(Bandwidth), Lit(" downstream DW"), Hole(Bandwidth)]
  const SERVICE_PORT_1: SharedLine := [Lit("service-port 1 vport 1"), Lit(" user-vlan "), Hole(VlanHsi), Lit(" vlan "), Hole(VlanHsi)]
  const SERVICE_PORT_2: SharedLine := [Lit("service-port 2 vport 2"), Lit(" user-vlan "), Hole(VlanHot), Lit(" vlan "), Hole(VlanHot)]
  const HYBRID_1: SharedLine := [Lit("switchport mode hybrid vport 1")]
  const HYBRID_2: SharedLine := [Lit("switchport mode hybrid vport 2")]
  const PORT_IDENTIFICATION: SharedLine := [Lit("port-identification"), Lit(" format"), Lit(" DSL-FORUM-PON"), Lit(" sport 1")]
  const PPPOE_AGENT: SharedLine := [Lit("pppoe-intermediate-agent"), Lit(" enable sport 1")]
  const LOCATION_FORMAT: SharedLine := [Lit("port-location format"), Lit(" dsl-forum sport 1")]
  const LOCATION_REMOTE: SharedLine := [Lit("port-location sub-option"), Lit(" remote-id enable sport 1")]
  const LOCATION_NAME: SharedLine := [Lit("port-location sub-option"), Lit(" remote-id name 20 sport 1")]
  const LOCATION_VLAN: SharedLine := [Lit("port-location ft-cid "), Hole(VlanHsi), Lit(" sport 1")]
  const PPPOE_PLUS: SharedLine := [Lit("pppoe-plus enable sport 1")]
  const PPPOE_TRUST: SharedLine := [Lit("pppoe-plus trust true"), Lit(" replace sport 1")]
  const SERVICE_INET: SharedLine := [Lit("service INET1 gemport 1 vlan "), Hole(VlanHsi)]
  const SERVICE_INET_TYPE: SharedLine := [Lit("service INET1 type internet"), Lit(" gemport 1 vlan "), Hole(VlanHsi)]
  const SERVICE_HOTSPOT: SharedLine := [Lit("service HOTSPOT"), Lit(" gemport 2 vlan "), Hole(VlanHot)]
  const WAN_PING: SharedLine := [Lit("wan-ip 1 ping-response enable"), Lit(" traceroute-response enable")]
  const SECURITY_MGMT: SharedLine :=
    [Lit("security-mgmt 1"), Lit(" mode forward"), Lit(" state enable"), Lit(" ingress-type wan"), Lit(" protocol web")]
  const SECURITY_MNG: SharedLine := [Lit("security-mng 1 state enable"), Lit(" mode permit protocol web")]
  const WIFI: SharedLine := [Lit("interface wifi wifi_0/1"), Lit(" state unlock")]
  const VLAN_ETH: SharedLine := [Lit("vlan port eth_0/4"), Lit(" mode tag vlan "), Hole(VlanHot)]
  const VLAN_WIFI: SharedLine := [Lit("vlan port wifi_0/2"), Lit(" mode tag vlan "), Hole(VlanHot)]

  const ZTE_V2: seq<ProgramLine> := [
    CONF_T, ZTE_OLT, ADD_ONU, EXIT, ZTE_ONU, BIND, NAME, TCONT_1, TCONT_2, UNICAST_1, LIMIT_1, UNICAST_2, LIMIT_2,
    SERVICE_PORT_1, SERVICE_PORT_2, PORT_IDENTIFICATION, PPPOE_AGENT, EXIT, ZTE_MNG, SERVICE_INET, SERVICE_HOTSPOT,
    WAN, WAN_PING, SECURITY_MGMT, END]

  const ZTE_V1: seq<ProgramLine> := [
    CONF_T, ZTE_OLT, ADD_ONU, EXIT, ZTE_ONU, NAME, DESCRIPTION_NAME, BIND, TCONT_1, UNICAST_1, LIMIT_1, HYBRID_1,
    SERVICE_PORT_1, LOCATION_FORMAT, LOCATION_REMOTE, LOCATION_NAME, LOCATION_VLAN, PPPOE_PLUS, PPPOE_TRUST, EXIT,
    ZTE_MNG, SERVICE_INET_TYPE, WAN, WAN_PING, WIFI, VLAN_ETH, VLAN_WIFI, SECURITY_MNG, EXIT, END, WRITE]

  const HUAWEI_V2: seq<SharedLine> := [
    CONF_T, HUAWEI_OLT, ADD_ONU, EXIT, HUAWEI_ONU, BIND, NAME, TCONT_1, TCONT_2, GEMPORT_1, LIMIT_1, GEMPORT_2, LIMIT_2,
    SERVICE_PORT_1, SERVICE_PORT_2, PORT_IDENTIFICATION, PPPOE_AGENT, EXIT, HUAWEI_MNG, SERVICE_INET, SERVICE_HOTSPOT, END]

  const HUAWEI_V1: seq<SharedLine> := [
    CONF_T, HUAWEI_OLT, ADD_ONU, EXIT, CONF_T, HUAWEI_ONU, NAME, DESCRIPTION, BIND, TCONT_1, TCONT_2, UNICAST_1, UNICAST_2,
    LIMIT_1, LIMIT_2, HYBRID_1, HYBRID_2, SERVICE_PORT_1, SERVICE_PORT_2, EXIT, HUAWEI_MNG, SERVICE_INET, SERVICE_HOTSPOT, END]
}
