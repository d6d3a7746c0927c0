/** The telnet session: commands framed into one write, one prompt read per command, and the VLAN profile
    listing that is parsed out of what was read. */
module Telnet {
  import opened Text
  import opened Decimal
  import Rendering

  // ---- framing

  /** What is written for a batch: every command and a line break. */
  function Framed(commands: seq<string>): string {
    if commands == [] then "" else Framed(commands[..|commands| - 1]) + commands[|commands| - 1] + "\n"
  }

  lemma {:induction false} FramedSplit(commands: seq<string>)
    ensures |Split(Framed(commands), '\n')| >= |commands| + 1
    ensures Split(Framed(commands), '\n') == commands + [""] <==> forall i :: 0 <= i < |commands| ==> '\n' !in commands[i]
    ensures |Split(Framed(commands), '\n')| == |commands| + 1 <==> forall i :: 0 <= i < |commands| ==> '\n' !in commands[i]
    decreases |commands|
  {
    if commands != [] {
      var init, last := commands[..|commands| - 1], commands[|commands| - 1];
      FramedSplit(init);
      var lines := Split(Framed(init), '\n');
      FramedEnd(init);
      FramedLast(Framed(init), last);
      PiecesOf(last);
      assert forall i :: 0 <= i < |init| ==> init[i] == commands[i];
      assert commands == init + [last];
      assert (init + [""])[..|init|] == init;
      if |lines| == |init| + 1 {
        assert lines == init + [""];
        assert lines[..|lines| - 1] == init;
      }
    }
  }

  lemma {:induction false} FramedEnd(commands: seq<string>)
    ensures var lines := Split(Framed(commands), '\n'); lines[|lines| - 1] == ""
    decreases |commands|
  {
    if commands != [] {
      var init, last := commands[..|commands| - 1], commands[|commands| - 1];
      assert Framed(commands) == (Framed(init) + last) + ['\n'] + "";
      SplitAppend(Framed(init) + last, '\n', "");
    }
  }

  /** One more command adds the lines it is made of. */
  lemma FramedLast(before: string, last: string)
    requires var lines := Split(before, '\n'); lines[|lines| - 1] == ""
    ensures var lines := Split(before, '\n');
            Split(before + last + "\n", '\n') == lines[..|lines| - 1] + Split(last, '\n') + [""]
  {
    assert before + last + "\n" == (before + last) + ['\n'] + "";
    SplitAppend(before + last, '\n', "");
    SplitOpen(before, last);
  }

  lemma {:induction false} SplitOpen(before: string, last: string)
    requires var lines := Split(before, '\n'); lines[|lines| - 1] == ""
    ensures var lines := Split(before, '\n'); Split(before + last, '\n') == lines[..|lines| - 1] + Split(last, '\n')
    decreases |before|
  {
    if before == "" {
      assert before + last == last;
    } else {
      var rest := Split(before[1..], '\n');
      assert (before + last)[1..] == before[1..] + last;
      if before[0] == '\n' {
        SplitOpen(before[1..], last);
      } else {
        assert |rest| > 1;
        SplitOpen(before[1..], last);
      }
    }
  }

  lemma {:induction false} PiecesOf(s: string)
    ensures |Split(s, '\n')| == 1 <==> '\n' !in s
    ensures '\n' !in s ==> Split(s, '\n') == [s]
    decreases |s|
  {
    if '\n' !in s {
      SplitWithout(s, '\n');
    } else if s[0] != '\n' {
      PiecesOf(s[1..]);
    }
  }

  // ---- prompts

  predicate EndsWith(s: string, d: string) { |d| <= |s| && s[|s| - |d|..] == d }

  predicate EndsPrompt(s: string) { EndsWith(s, "#") || EndsWith(s, ">") || EndsWith(s, "Confirm") }

  /** Output up to and including its first prompt. */
  ghost predicate Reply(s: string) { EndsPrompt(s) && forall k :: 0 <= k < |s| ==> !EndsPrompt(s[..k]) }

  /** Text up to its first number sign, greater-than sign or "Confirm" is one reply, and text without the
      letters those end with is none. */
  lemma PromptTexts(text: string, prompt: string)
    requires '#' !in text && '>' !in text && 'm' !in text && prompt in {"#", ">", "Confirm"}
    ensures Reply(text + prompt) && !EndsPrompt(text)
  {
    var s := text + prompt;
    assert s[|s| - |prompt|..] == prompt;
    forall k | 0 <= k < |s| ensures !EndsPrompt(s[..k]) {
      NoPromptEnd(s[..k]);
    }
    NoPromptEnd(text);
  }

  lemma NoPromptEnd(s: string)
    ensures s == "" || s[|s| - 1] !in {'#', '>', 'm'} ==> !EndsPrompt(s)
  {
    assert "Confirm"[6] == 'm' && |"Confirm"| == 7;
    if EndsWith(s, "Confirm") { assert s[|s| - 1] == s[|s| - 7..][6]; }
  }

  lemma RepliesCompare(a: string, b: string, ra: string, rb: string)
    requires a + ra == b + rb && Reply(a) && Reply(b)
    ensures a == b && ra == rb
  {
    var s := a + ra;
    assert s[..|a|] == a && s[..|b|] == b;
    assert forall k :: 0 <= k < |b| ==> b[..k] == s[..k];
    assert forall k :: 0 <= k < |a| ==> a[..k] == s[..k];
    assert |a| == |b|;
    assert s[|a|..] == ra && s[|b|..] == rb;
  }

  function Concat(parts: seq<string>): string {
    if parts == [] then "" else Concat(parts[..|parts| - 1]) + parts[|parts| - 1]
  }

  /** What reading `n` prompts from a stream gives: the replies read, the rest, and whether all were there. */
  ghost predicate ReadsPrompts(stream: string, n: nat, replies: seq<string>, rest: string, ok: bool) {
    && stream == Concat(replies) + rest
    && (forall i :: 0 <= i < |replies| ==> Reply(replies[i]))
    && (if ok then |replies| == n else |replies| < n && forall k :: 0 <= k <= |rest| ==> !EndsPrompt(rest[..k]))
  }

  class TelnetSession {
    /** What the device will send before the deadline. */
    var incoming: string
    var sent: string

    constructor (incoming: string)
      ensures this.incoming == incoming && sent == ""
    {
      this.incoming := incoming;
      sent := "";
    }

    /** Reads up to the first prompt; a time-out has read everything and returns nothing. */
    method ReadUntil() returns (data: Option<string>)
      modifies this`incoming
      ensures data.Some? ==> Reply(data.value) && old(incoming) == data.value + incoming
      ensures data.None? ==> incoming == "" && forall k :: 0 <= k <= |old(incoming)| ==> !EndsPrompt(old(incoming)[..k])
    {
      var n := 0;
      while n <= |incoming|
        invariant 0 <= n <= |incoming| + 1 && incoming == old(incoming)
        invariant forall k :: 0 <= k < n ==> !EndsPrompt(incoming[..k])
      {
        if EndsPrompt(incoming[..n]) {
          data := Some(incoming[..n]);
          assert forall k :: 0 <= k < n ==> incoming[..n][..k] == incoming[..k];
          incoming := incoming[n..];
          return;
        }
        n := n + 1;
      }
      incoming := "";
      return None;
    }

    /** One write, then one prompt per command. A failed read ends the batch with what was read before. */
    method SendCommands(commands: seq<string>, writeOk: bool)
      returns (output: string, ok: bool, ghost replies: seq<string>, ghost rest: string)
      modifies this`incoming, this`sent
      ensures !writeOk ==> !ok && output == "" && sent == old(sent) && incoming == old(incoming)
      ensures writeOk ==> sent == old(sent) + Framed(commands)
      ensures writeOk ==> ReadsPrompts(old(incoming), |commands|, replies, rest, ok) && output == Concat(replies)
      ensures writeOk && ok ==> incoming == rest
    {
      replies, rest := [], incoming;
      if !writeOk {
        return "", false, replies, rest;
      }
      var batch := "";
      for i := 0 to |commands|
        invariant batch == Framed(commands[..i])
      {
        assert commands[..i + 1][..i] == commands[..i];
        batch := batch + commands[i] + "\n";
      }
      assert commands[..|commands|] == commands;
      sent := sent + batch;
      output := "";
      for i := 0 to |commands|
        invariant sent == old(sent) + Framed(commands)
        invariant |replies| == i && output == Concat(replies) && rest == incoming
        invariant old(incoming) == Concat(replies) + incoming
        invariant forall k :: 0 <= k < i ==> Reply(replies[k])
      {
        rest := incoming;
        var data := ReadUntil();
        if data.None? {
          return output, false, replies, rest;
        }
        ghost var before := replies;
        replies := replies + [data.value];
        assert replies[..|before|] == before;
        output := output + data.value;
        rest := incoming;
      }
      ok := true;
    }
  }

  lemma {:induction false} ConcatFirst(parts: seq<string>)
    requires parts != []
    ensures Concat(parts) == parts[0] + Concat(parts[1..])
    decreases |parts|
  {
    if |parts| > 1 {
      var init := parts[..|parts| - 1];
      ConcatFirst(init);
      assert parts[1..][..|parts| - 2] == init[1..];
    } else {
      assert Concat(parts[..0]) == "" && Concat(parts[1..]) == "";
    }
  }

  /** Replies are told apart by their prompts alone, so a stream is read back as the replies it is made
      of, one per command. */
  lemma {:induction false} RepliesReadBack(sent: seq<string>, after: string, n: nat, replies: seq<string>, rest: string, ok: bool)
    requires forall i :: 0 <= i < |sent| ==> Reply(sent[i])
    requires n <= |sent| && ReadsPrompts(Concat(sent) + after, n, replies, rest, ok)
    ensures ok && replies == sent[..n] && rest == Concat(sent[n..]) + after
    decreases n
  {
    if n == 0 {
      assert replies == [] && sent[0..] == sent;
    } else {
      ConcatFirst(sent);
      assert Concat(sent) + after == sent[0] + (Concat(sent[1..]) + after);
      if replies == [] {
        assert Concat(replies) == "";
        PromptInside(sent[0], Concat(sent[1..]) + after, rest);
      } else {
        ConcatFirst(replies);
        assert Concat(replies) + rest == replies[0] + (Concat(replies[1..]) + rest);
        RepliesCompare(sent[0], replies[0], Concat(sent[1..]) + after, Concat(replies[1..]) + rest);
        RepliesReadBack(sent[1..], after, n - 1, replies[1..], rest, ok);
        assert sent[1..][n - 1..] == sent[n..];
        assert replies == [replies[0]] + replies[1..];
        assert sent[..n] == [sent[0]] + sent[1..][..n - 1];
      }
    }
  }

  /** A stream that begins with a reply has a prompt. */
  lemma PromptInside(reply: string, after: string, stream: string)
    requires Reply(reply) && stream == reply + after
    ensures exists k :: 0 <= k <= |stream| && EndsPrompt(stream[..k])
  {
    assert stream[..|reply|] == reply;
  }

  lemma {:induction false} ConcatEmpty(parts: seq<string>)
    requires forall i :: 0 <= i < |parts| ==> Reply(parts[i])
    ensures Concat(parts) == "" <==> parts == []
  {
  }

  // ---- a device that answers line by line

  function Flatten(answers: seq<seq<string>>): seq<string> {
    if answers == [] then [] else answers[0] + Flatten(answers[1..])
  }

  predicate OneEach(answers: seq<seq<string>>) { forall i :: 0 <= i < |answers| ==> |answers[i]| == 1 }

  /** Every line is answered, with text that ends in a prompt; echoed prompt characters split it into more
      than one reply. */
  ghost predicate Answers(answers: seq<seq<string>>) {
    forall i :: 0 <= i < |answers| ==> answers[i] != [] && forall k :: 0 <= k < |answers[i]| ==> Reply(answers[i][k])
  }

  lemma {:induction false} FlattenSize(answers: seq<seq<string>>)
    requires Answers(answers)
    ensures |Flatten(answers)| >= |answers|
    ensures |Flatten(answers)| == |answers| <==> OneEach(answers)
    ensures forall k :: 0 <= k < |Flatten(answers)| ==> Reply(Flatten(answers)[k])
    decreases |answers|
  {
    if answers != [] {
      var rest := answers[1..];
      FlattenSize(rest);
      assert OneEach(answers) <==> |answers[0]| == 1 && OneEach(rest) by {
        assert forall i :: 0 < i < |answers| ==> answers[i] == rest[i - 1];
        assert forall i :: 0 <= i < |rest| ==> rest[i] == answers[i + 1];
      }
    }
  }

  /** Reading one prompt per command always succeeds with a device that answers every line, and leaves
      nothing unread exactly when no command holds a line break and no answer holds a second prompt. */
  lemma BatchInStep(commands: seq<string>, answers: seq<seq<string>>, replies: seq<string>, rest: string, ok: bool)
    requires |answers| == |Split(Framed(commands), '\n')| - 1 && Answers(answers)
    requires ReadsPrompts(Concat(Flatten(answers)), |commands|, replies, rest, ok)
    ensures ok && |commands| <= |Flatten(answers)| && replies == Flatten(answers)[..|commands|]
    ensures rest == "" <==> (forall i :: 0 <= i < |commands| ==> '\n' !in commands[i]) && OneEach(answers)
  {
    var sent := Flatten(answers);
    FramedSplit(commands);
    FlattenSize(answers);
    assert Concat(sent) + "" == Concat(sent);
    RepliesReadBack(sent, "", |commands|, replies, rest, ok);
    assert rest == Concat(sent[|commands|..]);
    ConcatEmpty(sent[|commands|..]);
  }

  // ---- VLAN profiles

  const PROFILE_NAME := "Profile name:"
  const CVLAN := "CVLAN:"

  /** The listing read so far: the profiles found and the name of the last block. */
  datatype Listing = Listing(profiles: Rendering.Profiles, current: string)

  function ReadLine(l: Listing, raw: string): Listing {
    var line := TrimSpace(raw);
    if HasPrefix(line, PROFILE_NAME) then l.(current := TrimSpace(TrimPrefix(line, PROFILE_NAME)))
    else if HasPrefix(line, CVLAN) then
      var vlan := TrimSpace(TrimPrefix(line, CVLAN));
      if vlan != "" && l.current != "" then l.(profiles := l.profiles[vlan := l.current]) else l
    else l
  }

  function ReadLines(lines: seq<string>): Listing {
    if lines == [] then Listing(map[], "") else ReadLine(ReadLines(lines[..|lines| - 1]), lines[|lines| - 1])
  }

  method ParseVlanProfileOutput(raw: string) returns (profiles: Rendering.Profiles)
    ensures profiles == ReadLines(Split(raw, '\n')).profiles
  {
    profiles := map[];
    var currentName := "";
    var lines := Split(raw, '\n');
    for i := 0 to |lines|
      invariant Listing(profiles, currentName) == ReadLines(lines[..i])
    {
      assert lines[..i + 1][..i] == lines[..i];
      var line := TrimSpace(lines[i]);
      if line == "" {
        continue;
      }
      if HasPrefix(line, PROFILE_NAME) {
        currentName := TrimSpace(TrimPrefix(line, PROFILE_NAME));
        continue;
      }
      if HasPrefix(line, CVLAN) {
        var vlan := TrimSpace(TrimPrefix(line, CVLAN));
        if vlan != "" && currentName != "" {
          profiles := profiles[vlan := currentName];
        }
      }
    }
    assert lines[..|lines|] == lines;
  }

  /** A listing as a device prints it, with any white space around and any other lines between. */
  datatype Row =
    | NameRow(before: string, gap: string, name: string, after: string)
    | VlanRow(before: string, gap: string, vlan: string, after: string)
    | OtherRow(text: string)

  predicate Blank(s: string) { forall i :: 0 <= i < |s| ==> IsSpace(s[i]) }

  predicate Word(s: string) { s != "" && Trimmed(s) && '\n' !in s }

  ghost predicate GoodRow(r: Row) {
    match r
    case NameRow(before, gap, name, after) => Blank(before + gap + after) && '\n' !in before + gap + after && Word(name)
    case VlanRow(before, gap, vlan, after) => Blank(before + gap + after) && '\n' !in before + gap + after && Word(vlan)
    case OtherRow(text) => '\n' !in text && !HasPrefix(TrimSpace(text), PROFILE_NAME) && !HasPrefix(TrimSpace(text), CVLAN)
  }

  function RowText(r: Row): string {
    match r
    case NameRow(before, gap, name, after) => before + PROFILE_NAME + gap + name + after
    case VlanRow(before, gap, vlan, after) => before + CVLAN + gap + vlan + after
    case OtherRow(text) => text
  }

  /** What the rows say: a VLAN belongs to the block it stands in, and a later block takes it over. */
  function Meaning(rows: seq<Row>): Listing {
    if rows == [] then Listing(map[], "")
    else
      var l := Meaning(rows[..|rows| - 1]);
      match rows[|rows| - 1]
      case NameRow(_, _, name, _) => l.(current := name)
      case VlanRow(_, _, vlan, _) => if l.current == "" then l else l.(profiles := l.profiles[vlan := l.current])
      case OtherRow(_) => l
  }

  lemma LabelledLine(before: string, head: string, gap: string, word: string, after: string)
    requires Blank(before) && Blank(gap) && Blank(after) && Word(word)
    requires head != "" && !IsSpace(head[0])
    ensures TrimSpace(before + head + gap + word + after) == head + gap + word
    ensures TrimSpace(TrimPrefix(head + gap + word, head)) == word
  {
    var body := head + gap + word;
    assert before + head + gap + word + after == before + body + after;
    assert body[0] == head[0] && body[|body| - 1] == word[|word| - 1];
    TrimSpaceAround(before, body, after);
    assert head <= body && body[|head|..] == gap + word;
    TrimSpaceAround(gap, word, "");
    assert gap + word + "" == gap + word;
  }

  lemma BlankParts(a: string, b: string, c: string)
    requires Blank(a + b + c)
    ensures Blank(a) && Blank(b) && Blank(c)
  {
    var s := a + b + c;
    assert forall i :: 0 <= i < |a| ==> a[i] == s[i];
    assert forall i :: 0 <= i < |b| ==> b[i] == s[|a| + i];
    assert forall i :: 0 <= i < |c| ==> c[i] == s[|a| + |b| + i];
  }

  lemma RowRead(l: Listing, r: Row)
    requires GoodRow(r)
    ensures ReadLine(l, RowText(r)) ==
            match r
            case NameRow(_, _, name, _) => l.(current := name)
            case VlanRow(_, _, vlan, _) => if l.current == "" then l else l.(profiles := l.profiles[vlan := l.current])
            case OtherRow(_) => l
  {
    match r
    case NameRow(before, gap, name, after) =>
      BlankParts(before, gap, after);
      LabelledLine(before, PROFILE_NAME, gap, name, after);
    case VlanRow(before, gap, vlan, after) =>
      BlankParts(before, gap, after);
      LabelledLine(before, CVLAN, gap, vlan, after);
      assert (CVLAN + gap + vlan)[0] == 'C' && PROFILE_NAME[0] == 'P';
    case OtherRow(text) =>
  }

  lemma RowOneLine(r: Row)
    requires GoodRow(r)
    ensures '\n' !in RowText(r)
  {
  }

  function RowTexts(rows: seq<Row>): (texts: seq<string>)
    ensures |texts| == |rows|
    ensures forall i :: 0 <= i < |texts| ==> texts[i] == RowText(rows[i])
  {
    seq(|rows|, i requires 0 <= i < |rows| => RowText(rows[i]))
  }

  lemma {:induction false} RowsRead(rows: seq<Row>)
    requires forall i :: 0 <= i < |rows| ==> GoodRow(rows[i])
    ensures ReadLines(RowTexts(rows)) == Meaning(rows)
    decreases |rows|
  {
    if rows != [] {
      var n := |rows| - 1;
      RowsRead(rows[..n]);
      assert RowTexts(rows)[..n] == RowTexts(rows[..n]);
      RowRead(Meaning(rows[..n]), rows[n]);
    }
  }

  /** Parsing a printed listing gives what the listing says. */
  lemma ProfilesRoundTrip(rows: seq<Row>)
    requires rows != [] && forall i :: 0 <= i < |rows| ==> GoodRow(rows[i])
    ensures ReadLines(Split(Join(RowTexts(rows), '\n'), '\n')) == Meaning(rows)
  {
    forall i | 0 <= i < |rows| ensures '\n' !in RowTexts(rows)[i] {
      RowOneLine(rows[i]);
    }
    SplitJoin(RowTexts(rows), '\n');
    RowsRead(rows);
  }

  /** The name of the last block that lists a VLAN, or nothing. */
  function LastBlock(rows: seq<Row>, vlan: string): string {
    if rows == [] then ""
    else
      var init, last := rows[..|rows| - 1], rows[|rows| - 1];
      if last.VlanRow? && last.vlan == vlan && Meaning(init).current != "" then Meaning(init).current else LastBlock(init, vlan)
  }

  lemma {:induction false} LastBlockWins(rows: seq<Row>, vlan: string)
    ensures vlan in Meaning(rows).profiles <==> LastBlock(rows, vlan) != ""
    ensures vlan in Meaning(rows).profiles ==> Meaning(rows).profiles[vlan] == LastBlock(rows, vlan)
    decreases |rows|
  {
    if rows != [] {
      LastBlockWins(rows[..|rows| - 1], vlan);
    }
  }

  /** From the device's listing to the command line: a request's VLAN resolves to the last block that
      lists it, and to a name made from the number when none does. */
  lemma ListedProfileResolves(rows: seq<Row>, vlan: int)
    requires rows != [] && vlan > 0 && forall i :: 0 <= i < |rows| ==> GoodRow(rows[i])
    ensures var profiles := ReadLines(Split(Join(RowTexts(rows), '\n'), '\n')).profiles;
            var named := LastBlock(rows, SignedDec(vlan));
            Rendering.ResolveVlanProfile(profiles, vlan) == if named != "" then named else "P" + SignedDec(vlan)
  {
    ProfilesRoundTrip(rows);
    LastBlockWins(rows, SignedDec(vlan));
  }
}
