/** The provisioning flow and its structured log. */
module Provisioning {
  import opened Text
  import opened Decimal
  import opened Rendering
  import opened Telnet
  import opened Commands
  import CommandTexts

  datatype Status = Info | Succeeded | Failure

  datatype LogEntry = LogEntry(step: string, command: string, status: Status, message: string)

  /** Where a flow ended. */
  datatype Verdict = NoOlt | UnknownTemplate | NoConnection | BatchFailed | OltError | Provisioned

  class ProvisioningLog {
    var logs: seq<LogEntry>

    constructor ()
      ensures logs == []
    {
      logs := [];
    }

    method Add(entry: LogEntry)
      modifies this
      ensures logs == old(logs) + [entry]
    {
      logs := logs + [entry];
    }

    method AppendSteps(commands: seq<string>)
      modifies this
      ensures logs == old(logs) + Steps(commands)
    {
      for i := 0 to |commands|
        invariant logs == old(logs) + Steps(commands[..i])
      {
        assert Steps(commands[..i + 1]) == Steps(commands[..i]) + [StepEntry(i, commands[i])];
        logs := logs + [StepEntry(i, commands[i])];
      }
      assert commands[..|commands|] == commands;
    }
  }

  function StepEntry(i: nat, command: string): LogEntry {
    LogEntry("Step " + SignedDec(i + 1), command, Succeeded, "OK")
  }

  /** One entry per command, numbered from one. */
  function Steps(commands: seq<string>): (entries: seq<LogEntry>)
    ensures |entries| == |commands|
    ensures forall i :: 0 <= i < |entries| ==> entries[i] == StepEntry(i, commands[i])
  {
    seq(|commands|, i requires 0 <= i < |commands| => StepEntry(i, commands[i]))
  }

  predicate NoFailure(logs: seq<LogEntry>) { forall i :: 0 <= i < |logs| ==> logs[i].status != Failure }

  // ---- validation of the output

  predicate Includes(s: string, sub: string) {
    sub <= s || (s != "" && Includes(s[1..], sub))
  }

  lemma {:induction false} IncludesAnywhere(s: string, sub: string)
    ensures Includes(s, sub) <==> Contains(s, sub)
    decreases |s|
  {
    if s != "" {
      IncludesAnywhere(s[1..], sub);
      if Contains(s[1..], sub) {
        var i :| 0 <= i <= |s[1..]| && sub <= s[1..][i..];
        assert s[1..][i..] == s[i + 1..];
      }
      if Contains(s, sub) && !(sub <= s) {
        var i :| 0 <= i <= |s| && sub <= s[i..];
        assert s[0..] == s;
        assert s[i..] == s[1..][i - 1..];
      }
    }
    assert s[0..] == s;
  }

  predicate Complains(output: string) {
    Includes(ToLower(output), "error") || Includes(ToLower(output), "invalid")
  }

  predicate WordAt(output: string, word: string, i: int, j: int) {
    0 <= i <= j <= |output| && ToLower(output[i..j]) == word
  }

  ghost predicate HoldsWord(output: string, word: string) { exists i, j :: WordAt(output, word, i, j) }

  lemma WordHeld(output: string, word: string)
    ensures Includes(ToLower(output), word) <==> HoldsWord(output, word)
  {
    IncludesAnywhere(ToLower(output), word);
    if Contains(ToLower(output), word) {
      var i :| 0 <= i <= |ToLower(output)| && word <= ToLower(output)[i..];
      LowerSlice(output, i, i + |word|);
      assert ToLower(output)[i..][..|word|] == ToLower(output)[i..i + |word|];
      assert WordAt(output, word, i, i + |word|);
    }
    if HoldsWord(output, word) {
      var i, j :| WordAt(output, word, i, j);
      LowerSlice(output, i, j);
      assert ToLower(output)[i..j] == ToLower(output)[i..][..j - i];
    }
  }

  /** Output is taken for an error exactly when it holds one of the two words somewhere, in any case. */
  lemma ComplainsExact(output: string)
    ensures Complains(output) <==> HoldsWord(output, "error") || HoldsWord(output, "invalid")
  {
    WordHeld(output, "error");
    WordHeld(output, "invalid");
  }

  lemma LowerSlice(s: string, i: nat, j: nat)
    requires i <= j <= |s|
    ensures ToLower(s)[i..j] == ToLower(s[i..j])
  {
  }

  // ---- the flow

  function JoinedLines(commands: seq<string>): string { if commands == [] then "" else Join(commands, '\n') }

  /** The commands of a request: its VLAN profiles are resolved, then its template is rendered. */
  function Preview(olt: Option<Profiles>, r: RequestValues): Option<seq<string>> {
    if olt.None? then None else GenerateCommands(WithProfiles(r, olt.value))
  }

  method PrepareProvisioning(olt: Option<Profiles>, r: RequestValues)
    returns (commands: Option<seq<string>>, hydrated: RequestValues)
    ensures commands == Preview(olt, r)
    ensures hydrated == if olt.Some? then WithProfiles(r, olt.value) else r
  {
    if olt.None? {
      return None, r;
    }
    var request := new Request(r);
    request.ApplyVlanProfiles(olt.value);
    hydrated := request.values;
    var raw := ProvisioningTemplate(hydrated.templateId);
    if raw.None? {
      return None, hydrated;
    }
    var rendered := RenderProvisioningTemplate(raw.value, DataOf(hydrated));
    return Some(rendered), hydrated;
  }

  predicate EntersOnu(command: string) { HasPrefix(TrimSpace(command), MNG) }

  predicate Waits(commands: seq<string>) { exists i :: 0 <= i < |commands| && EntersOnu(commands[i]) }

  method ShouldWaitForOnuInitialization(commands: seq<string>) returns (wait: bool)
    ensures wait <==> Waits(commands)
  {
    for i := 0 to |commands|
      invariant forall k :: 0 <= k < i ==> !EntersOnu(commands[k])
    {
      if EntersOnu(commands[i]) {
        return true;
      }
    }
    return false;
  }

  // ---- entries

  function Started(r: RequestValues): LogEntry {
    LogEntry("Init", "-", Info, "Starting provisioning for SN: " + r.sn + " on " + r.oltId)
  }

  function Connecting(): LogEntry { LogEntry("Connect", "-", Info, "Connecting to OLT Telnet...") }

  function Connected(): LogEntry { LogEntry("Connect", "-", Succeeded, "Connected to OLT") }

  function Waiting(): LogEntry { LogEntry("Wait", "-", Info, "Waiting 3s for ONU initialization...") }

  function Finished(templateId: string): LogEntry {
    LogEntry("Finish", "-", Succeeded, "Provisioning completed successfully for template " + templateId)
  }

  /** Everything a log holds before the batch is sent. */
  function Opening(r: RequestValues, commands: seq<string>): seq<LogEntry> {
    [Started(r), Connecting(), Connected()] + if Waits(commands) then [Waiting()] else []
  }

  lemma OpeningClean(r: RequestValues, commands: seq<string>)
    ensures NoFailure(Opening(r, commands))
  {
  }

  lemma NoFailureJoin(a: seq<LogEntry>, b: seq<LogEntry>)
    ensures NoFailure(a + b) <==> NoFailure(a) && NoFailure(b)
  {
    assert forall i :: 0 <= i < |a| ==> (a + b)[i] == a[i];
    assert forall i :: 0 <= i < |b| ==> (a + b)[|a| + i] == b[i];
  }

  lemma EntryFails(e: LogEntry)
    ensures NoFailure([e]) <==> e.status != Failure
  {
    assert [e][0] == e;
  }

  lemma StepsClean(commands: seq<string>)
    ensures NoFailure(Steps(commands))
  {
  }

  /** One failed entry after a prefix. */
  predicate FailsAfter(prefix: seq<LogEntry>, logs: seq<LogEntry>) {
    |logs| == |prefix| + 1 && prefix <= logs && logs[|prefix|].status == Failure
  }

  /** The log of a flow that ended as given. */
  ghost predicate LogFits(verdict: Verdict, logs: seq<LogEntry>, r: RequestValues, commands: seq<string>) {
    match verdict
    case Provisioned => logs == Opening(r, commands) + Steps(commands) + [Finished(r.templateId)]
    case BatchFailed | OltError =>
      FailsAfter(Opening(r, commands), logs) && logs[|Opening(r, commands)|].command == JoinedLines(commands)
    case NoConnection => FailsAfter([Started(r), Connecting()], logs)
    case _ => FailsAfter([Started(r)], logs)
  }

  /** A log holds a failed entry exactly when its flow did not succeed. */
  lemma LogSound(verdict: Verdict, logs: seq<LogEntry>, r: RequestValues, commands: seq<string>)
    requires LogFits(verdict, logs, r, commands)
    ensures verdict.Provisioned? <==> NoFailure(logs)
  {
    OpeningClean(r, commands);
    StepsClean(commands);
    if verdict.Provisioned? {
      NoFailureJoin(Opening(r, commands), Steps(commands));
      NoFailureJoin(Opening(r, commands) + Steps(commands), [Finished(r.templateId)]);
      EntryFails(Finished(r.templateId));
    } else {
      FailedEntryLast(verdict, logs, r, commands);
    }
  }

  lemma FailedEntryLast(verdict: Verdict, logs: seq<LogEntry>, r: RequestValues, commands: seq<string>)
    requires LogFits(verdict, logs, r, commands) && !verdict.Provisioned?
    ensures |logs| > 1 && logs[|logs| - 1].status == Failure
  {
  }

  /** A failed batch is logged with its commands, line by line. */
  lemma BatchEntryReadBack(verdict: Verdict, logs: seq<LogEntry>, r: RequestValues, commands: seq<string>)
    requires LogFits(verdict, logs, r, commands) && (verdict.BatchFailed? || verdict.OltError?)
    requires commands != [] && forall i :: 0 <= i < |commands| ==> '\n' !in commands[i]
    ensures |logs| > 0 && Split(logs[|logs| - 1].command, '\n') == commands
  {
    SplitJoin(commands, '\n');
  }

  /** Every log starts by naming the serial number and the OLT. */
  lemma LogStarts(verdict: Verdict, logs: seq<LogEntry>, r: RequestValues, commands: seq<string>)
    requires LogFits(verdict, logs, r, commands)
    ensures logs != [] && logs[0].message == "Starting provisioning for SN: " + r.sn + " on " + r.oltId
  {
  }

  /** The step entries of a successful log are the commands of the preview, in order, from Step 1. */
  lemma StepsAreThePreview(logs: seq<LogEntry>, r: RequestValues, commands: seq<string>, i: nat)
    requires LogFits(Provisioned, logs, r, commands) && i < |commands|
    ensures var first := |Opening(r, commands)|;
            && |logs| == first + |commands| + 1
            && logs[first + i].step == "Step " + SignedDec(i + 1) && logs[first + i].command == commands[i]
  {
  }

  /** Sending the batch and judging what came back, with the log already opened. */
  method RunBatch(log: ProvisioningLog, ghost r: RequestValues, templateId: string, session: TelnetSession,
                  commands: seq<string>, writeOk: bool, errorText: string)
    returns (verdict: Verdict, ghost replies: seq<string>, ghost rest: string)
    requires log.logs == Opening(r, commands) && templateId == r.templateId
    modifies log, session
    ensures verdict.BatchFailed? || verdict.OltError? || verdict.Provisioned?
    ensures LogFits(verdict, log.logs, r, commands)
    ensures !writeOk ==> verdict.BatchFailed?
    ensures writeOk ==> session.sent == old(session.sent) + Framed(commands)
    ensures writeOk ==> ReadsPrompts(old(session.incoming), |commands|, replies, rest, verdict != BatchFailed)
    ensures writeOk && !verdict.BatchFailed? ==> (verdict.OltError? <==> Complains(Concat(replies)))
  {
    var output, ok;
    output, ok, replies, rest := session.SendCommands(commands, writeOk);
    if !ok {
      log.Add(LogEntry("Batch", JoinedLines(commands), Failure, errorText));
      return BatchFailed, replies, rest;
    }
    if Complains(output) {
      log.Add(LogEntry("Batch", JoinedLines(commands), Failure, "OLT Error: " + output));
      return OltError, replies, rest;
    }
    log.AppendSteps(commands);
    log.Add(Finished(templateId));
    return Provisioned, replies, rest;
  }

  /** Connecting, the wait a new ONU needs, and the batch. */
  method ConnectAndRun(log: ProvisioningLog, ghost r: RequestValues, templateId: string, session: TelnetSession?,
                       commands: seq<string>, writeOk: bool, errorText: string)
    returns (verdict: Verdict, ghost replies: seq<string>, ghost rest: string)
    requires log.logs == [Started(r)] && templateId == r.templateId
    modifies log, session
    ensures verdict.NoConnection? <==> session == null
    ensures !verdict.NoOlt? && !verdict.UnknownTemplate?
    ensures LogFits(verdict, log.logs, r, commands)
    ensures session != null && !writeOk ==> verdict.BatchFailed?
    ensures session != null && writeOk ==>
      && session.sent == old(session.sent) + Framed(commands)
      && ReadsPrompts(old(session.incoming), |commands|, replies, rest, verdict != BatchFailed)
      && (!verdict.BatchFailed? ==> (verdict.OltError? <==> Complains(Concat(replies))))
  {
    replies, rest := [], "";
    log.Add(Connecting());
    if session == null {
      log.Add(LogEntry("Connect", "-", Failure, errorText));
      return NoConnection, replies, rest;
    }
    log.Add(Connected());
    var wait := ShouldWaitForOnuInitialization(commands);
    if wait {
      log.Add(Waiting());
    }
    verdict, replies, rest := RunBatch(log, r, templateId, session, commands, writeOk, errorText);
  }

  method FailPreparing(log: ProvisioningLog, ghost r: RequestValues, errorText: string)
    requires log.logs == [Started(r)]
    modifies log
    ensures !NoFailure(log.logs)
    ensures LogFits(NoOlt, log.logs, r, []) && LogFits(UnknownTemplate, log.logs, r, [])
  {
    log.Add(LogEntry("Template", "-", Failure, errorText));
    LogSound(NoOlt, log.logs, r, []);
  }

  /** How a flow ends, given whether the OLT is registered, the commands prepared for it, whether a session
      could be opened and whether the batch could be written: each failure in its place, a log that fits it,
      and success exactly when the log holds no failed entry. */
  ghost predicate Settled(verdict: Verdict, logs: seq<LogEntry>, r: RequestValues, known: bool,
                          commands: Option<seq<string>>, connected: bool, writeOk: bool)
  {
    && (verdict.NoOlt? <==> !known)
    && (verdict.UnknownTemplate? <==> known && commands.None?)
    && (verdict.NoConnection? <==> commands.Some? && !connected)
    && LogFits(verdict, logs, r, if commands.Some? then commands.value else [])
    && (verdict.Provisioned? <==> NoFailure(logs))
    && (verdict.Provisioned? ==> commands.Some? && connected && writeOk)
  }

  /** The log of a flow, given what its preparation gave. */
  method RunPrepared(known: bool, r: RequestValues, templateId: string, prepared: Option<seq<string>>,
                     session: TelnetSession?, writeOk: bool, errorText: string)
    returns (verdict: Verdict, logs: seq<LogEntry>, ghost replies: seq<string>, ghost rest: string)
    requires templateId == r.templateId && (!known ==> prepared.None?)
    modifies session
    ensures Settled(verdict, logs, r, known, prepared, session != null, writeOk)
    ensures prepared.Some? && session != null && writeOk ==>
      && session.sent == old(session.sent) + Framed(prepared.value)
      && ReadsPrompts(old(session.incoming), |prepared.value|, replies, rest, verdict != BatchFailed)
      && (verdict != BatchFailed ==> (verdict.OltError? <==> Complains(Concat(replies))))
  {
    var log := new ProvisioningLog();
    log.Add(Started(r));
    replies, rest := [], "";
    if prepared.None? {
      verdict := if known then UnknownTemplate else NoOlt;
      FailPreparing(log, r, errorText);
    } else {
      verdict, replies, rest := ConnectAndRun(log, r, templateId, session, prepared.value, writeOk, errorText);
    }
    logs := log.logs;
    LogSound(verdict, logs, r, if prepared.Some? then prepared.value else []);
  }

  /** `olt` is the OLT's profiles if it is registered, `session` the telnet session if one could be opened,
      `writeOk` whether the batch could be written. The error texts of libraries are a parameter. */
  method ProvisionOnu(olt: Option<Profiles>, r: RequestValues, session: TelnetSession?, writeOk: bool, errorText: string)
    returns (verdict: Verdict, logs: seq<LogEntry>, ghost commands: Option<seq<string>>, ghost replies: seq<string>, ghost rest: string)
    modifies session
    ensures commands == Preview(olt, r)
    ensures Settled(verdict, logs, r, olt.Some?, commands, session != null, writeOk)
    ensures commands.Some? && session != null && writeOk ==>
      && session.sent == old(session.sent) + Framed(commands.value)
      && ReadsPrompts(old(session.incoming), |commands.value|, replies, rest, verdict != BatchFailed)
      && (verdict != BatchFailed ==> (verdict.OltError? <==> Complains(Concat(replies))))
  {
    var prepared, hydrated := PrepareProvisioning(olt, r);
    commands := prepared;
    verdict, logs, replies, rest := RunPrepared(olt.Some?, r, hydrated.templateId, prepared, session, writeOk, errorText);
  }

  lemma SplitsBack(commands: seq<string>)
    ensures Split(Framed(commands), '\n') == commands + [""] <==> !SomeHolds(commands, '\n')
  {
    FramedSplit(commands);
  }

  /** From the request to the wire: with a known template the preview has the template's number of
      commands, and the bytes written split back into exactly those if and only if no text that the template
      uses of the request, its VLAN profile resolved, holds a line break. */
  lemma PreviewFrames(profiles: Profiles, r: RequestValues)
    requires Known(r.templateId)
    ensures var preview := Preview(Some(profiles), r);
            && preview.Some? && |preview.value| == CommandCount(r.templateId)
            && (Split(Framed(preview.value), '\n') == preview.value + [""] <==> !Carries(WithProfiles(r, profiles), '\n'))
  {
    GeneratedCount(WithProfiles(r, profiles));
    CommandsCarry(WithProfiles(r, profiles), '\n');
    SplitsBack(Preview(Some(profiles), r).value);
  }

  lemma WaitingLogged(r: RequestValues, commands: seq<string>, i: nat)
    requires i < |commands| && HasPrefix(TrimSpace(commands[i]), MNG)
    ensures Waits(commands) && Opening(r, commands) == [Started(r), Connecting(), Connected(), Waiting()]
  {
    assert EntersOnu(commands[i]);
  }

  /** Every request with a known template waits for the new ONU before its batch is sent, and its log says
      so. */
  lemma KnownTemplatesWait(profiles: Profiles, r: RequestValues, commands: seq<string>)
    requires Known(r.templateId) && Preview(Some(profiles), r) == Some(commands)
    ensures Waits(commands) && Opening(r, commands) == [Started(r), Connecting(), Connected(), Waiting()]
  {
    var i := CommandsManage(WithProfiles(r, profiles));
    WaitingLogged(r, commands, i);
  }

  /** The profile that a request's internet VLAN ends up with: the one asked for, else the one the device
      listed for that VLAN, else a name made from the number. */
  function InternetProfile(profiles: Profiles, r: RequestValues): string {
    if r.profileInternet != "" then r.profileInternet
    else if r.vlanInternet <= 0 then ""
    else if SignedDec(r.vlanInternet) in profiles && profiles[SignedDec(r.vlanInternet)] != ""
      then profiles[SignedDec(r.vlanInternet)]
    else "P" + SignedDec(r.vlanInternet)
  }

  lemma HydratedSays(commands: seq<string>, profiles: Profiles, r: RequestValues)
    requires CommandTexts.Says(commands, WithProfiles(r, profiles))
    ensures CommandTexts.Says(commands, r.(profileInternet := InternetProfile(profiles, r)))
  {
  }

  /** What is previewed, and so what is executed, says every value of the request in its place, with the
      login's profile resolved from the internet VLAN. */
  lemma PreviewSays(profiles: Profiles, r: RequestValues)
    requires Known(r.templateId)
    ensures Preview(Some(profiles), r).Some?
    ensures CommandTexts.Says(Preview(Some(profiles), r).value, r.(profileInternet := InternetProfile(profiles, r)))
  {
    CommandTexts.CommandsSay(WithProfiles(r, profiles));
    HydratedSays(Preview(Some(profiles), r).value, profiles, r);
  }
}
