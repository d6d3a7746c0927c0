/** Redis keys of the service and the glob pattern that invalidates one OLT. */
module CacheKeys {
  import opened Text
  import opened Decimal

  datatype Key =
    | OltInfo(olt: string)
    | OltFirmware(olt: string)
    | OnuList(olt: string, board: int, pon: int)
    | OnuNames(olt: string, board: int, pon: int)
    | OnuDetail(olt: string, board: int, pon: int, onuId: int)
    | OltHealth(olt: string)
    | PonList(olt: string, board: int)
    | ActivityLog
    | SearchIndex
  {
    predicate OfOlt() { !ActivityLog? && !SearchIndex? }
  }

  /** The formatted key. */
  function KeyText(k: Key): string {
    match k
    case OltInfo(o) => "olt:" + o + ":info"
    case OltFirmware(o) => "olt:" + o + ":firmware"
    case OnuList(o, b, p) => "olt:" + o + ":board:" + SignedDec(b) + ":pon:" + SignedDec(p) + ":list"
    case OnuNames(o, b, p) => "olt:" + o + ":board:" + SignedDec(b) + ":pon:" + SignedDec(p) + ":names"
    case OnuDetail(o, b, p, i) => "olt:" + o + ":onu:" + SignedDec(b) + ":" + SignedDec(p) + ":" + SignedDec(i)
    case OltHealth(o) => "olt:" + o + ":health"
    case PonList(o, b) => "olt:" + o + ":board:" + SignedDec(b) + ":pon:list"
    case ActivityLog => "activity:log"
    case SearchIndex => "search:index"
  }

  /** The colon-separated components after the OLT ID. */
  function Tail(k: Key): (t: seq<string>)
    requires k.OfOlt()
    ensures |t| >= 1
  {
    match k
    case OltInfo(_) => ["info"]
    case OltFirmware(_) => ["firmware"]
    case OnuList(_, b, p) => ["board", SignedDec(b), "pon", SignedDec(p), "list"]
    case OnuNames(_, b, p) => ["board", SignedDec(b), "pon", SignedDec(p), "names"]
    case OnuDetail(_, b, p, i) => ["onu", SignedDec(b), SignedDec(p), SignedDec(i)]
    case OltHealth(_) => ["health"]
    case PonList(_, b) => ["board", SignedDec(b), "pon", "list"]
  }

  lemma TailColonFree(k: Key)
    requires k.OfOlt()
    ensures forall i :: 0 <= i < |Tail(k)| ==> ':' !in Tail(k)[i]
  {
    match k
    case OnuList(_, b, p) => SignedDecChars(b); SignedDecChars(p);
    case OnuNames(_, b, p) => SignedDecChars(b); SignedDecChars(p);
    case OnuDetail(_, b, p, i) => SignedDecChars(b); SignedDecChars(p); SignedDecChars(i);
    case PonList(_, b) => SignedDecChars(b);
    case _ =>
  }

  lemma JoinCons(a: string, parts: seq<string>)
    requires |parts| >= 1
    ensures Join([a] + parts, ':') == a + ":" + Join(parts, ':')
  {
  }

  /** Five components, the way the list and names keys end. */
  lemma PonPath(b: string, p: string, end: string)
    ensures Join(["board", b, "pon", p, end], ':') == "board:" + b + ":pon:" + p + ":" + end
  {
    JoinCons(p, [end]);
    JoinCons("pon", [p, end]);
    JoinCons(b, ["pon", p, end]);
    JoinCons("board", [b, "pon", p, end]);
    var j1 := p + ":" + end;
    var j2 := "pon" + ":" + j1;
    assert [p] + [end] == [p, end];
    assert ["pon"] + [p, end] == ["pon", p, end];
    assert [b] + ["pon", p, end] == [b, "pon", p, end];
    assert ["board"] + [b, "pon", p, end] == ["board", b, "pon", p, end];
    assert b + ":" + j2 == b + ":pon:" + j1;
    assert "board" + ":" + (b + ":pon:" + j1) == "board:" + b + ":pon:" + p + ":" + end;
  }

  lemma ShortPath(a: string, b: string, c: string, d: string)
    ensures Join([a, b, c, d], ':') == a + ":" + b + ":" + c + ":" + d
  {
    JoinCons(c, [d]);
    JoinCons(b, [c, d]);
    JoinCons(a, [b, c, d]);
    assert [c] + [d] == [c, d];
    assert [b] + [c, d] == [b, c, d];
    assert [a] + [b, c, d] == [a, b, c, d];
    var j1 := c + ":" + d;
    assert a + ":" + (b + ":" + j1) == a + ":" + b + ":" + c + ":" + d;
  }

  lemma PonKeyShape(o: string, b: int, p: int, end: string)
    ensures "olt:" + o + ":board:" + SignedDec(b) + ":pon:" + SignedDec(p) + ":" + end
            == "olt:" + (o + ":" + Join(["board", SignedDec(b), "pon", SignedDec(p), end], ':'))
  {
    PonPath(SignedDec(b), SignedDec(p), end);
    var rest := SignedDec(b) + ":pon:" + SignedDec(p) + ":" + end;
    assert "board:" + rest == "board:" + SignedDec(b) + ":pon:" + SignedDec(p) + ":" + end;
    assert ":" + ("board:" + rest) == ":board:" + rest;
    assert o + ":" + ("board:" + rest) == o + ":board:" + rest;
    assert "olt:" + (o + ":board:" + rest) == "olt:" + o + ":board:" + rest;
  }

  lemma Nest(o: string, rest: string)
    ensures "olt:" + o + ":" + rest == "olt:" + (o + ":" + rest)
  {
  }

  lemma DetailKeyShape(o: string, b: string, p: string, i: string)
    ensures "olt:" + o + ":onu:" + b + ":" + p + ":" + i == "olt:" + (o + ":" + Join(["onu", b, p, i], ':'))
  {
    ShortPath("onu", b, p, i);
    var rest := b + ":" + p + ":" + i;
    assert "onu" + ":" + b + ":" + p + ":" + i == "onu:" + rest;
    Nest(o, "onu:" + rest);
    assert ":onu:" + rest == ":" + ("onu:" + rest);
    assert "olt:" + o + ":onu:" + b + ":" + p + ":" + i == "olt:" + o + (":onu:" + rest);
  }

  lemma PonListKeyShape(o: string, b: string)
    ensures "olt:" + o + ":board:" + b + ":pon:list" == "olt:" + (o + ":" + Join(["board", b, "pon", "list"], ':'))
  {
    ShortPath("board", b, "pon", "list");
    assert "board" + ":" + b + ":" + "pon" + ":" + "list" == "board:" + b + ":pon:list";
    Nest(o, "board:" + b + ":pon:list");
    assert ":board:" + b + ":pon:list" == ":" + ("board:" + b + ":pon:list");
  }

  lemma PlainKeyShape(o: string, end: string)
    ensures "olt:" + o + (":" + end) == "olt:" + (o + ":" + Join([end], ':'))
  {
  }

  lemma KeyTextShape(k: Key)
    requires k.OfOlt()
    ensures KeyText(k) == "olt:" + (k.olt + ":" + Join(Tail(k), ':'))
  {
    match k
    case OnuList(o, b, p) =>
      PonKeyShape(o, b, p, "list");
      assert ":" + "list" == ":list";
    case OnuNames(o, b, p) =>
      PonKeyShape(o, b, p, "names");
      assert ":" + "names" == ":names";
    case OnuDetail(o, b, p, i) => DetailKeyShape(o, SignedDec(b), SignedDec(p), SignedDec(i));
    case PonList(o, b) => PonListKeyShape(o, SignedDec(b));
    case OltInfo(o) =>
      PlainKeyShape(o, "info");
      assert ":" + "info" == ":info";
    case OltFirmware(o) =>
      PlainKeyShape(o, "firmware");
      assert ":" + "firmware" == ":firmware";
    case OltHealth(o) =>
      PlainKeyShape(o, "health");
      assert ":" + "health" == ":health";
  }

  lemma KeyTextHead(k: Key)
    ensures KeyText(k) != ""
    ensures KeyText(k)[0] == if k.OfOlt() then 'o' else if k.ActivityLog? then 'a' else 's'
  {
  }

  /** Components of a key: the OLT ID contributes its own, whatever colons it holds. */
  lemma KeyComponents(k: Key)
    requires k.OfOlt()
    ensures Split(KeyText(k), ':') == ["olt"] + Split(k.olt, ':') + Tail(k)
  {
    KeyTextShape(k);
    TailColonFree(k);
    SplitJoin(Tail(k), ':');
    var rest := k.olt + ":" + Join(Tail(k), ':');
    SplitAppend(k.olt, ':', Join(Tail(k), ':'));
    assert KeyText(k) == "olt" + ":" + rest;
    SplitCons("olt", ':', rest);
  }

  /** Read from the right, the components tell family and numbers apart. */
  lemma TailDetermined(k1: Key, k2: Key, a: seq<string>, b: seq<string>)
    requires k1.OfOlt() && k2.OfOlt()
    requires a + Tail(k1) == b + Tail(k2)
    ensures Tail(k1) == Tail(k2) && a == b
  {
    var s := a + Tail(k1);
    var n := |s|;
    assert s[n - 1] == Tail(k1)[|Tail(k1)| - 1] == Tail(k2)[|Tail(k2)| - 1];
    if k1.OnuDetail? { SignedDecChars(k1.onuId); }
    if k2.OnuDetail? { SignedDecChars(k2.onuId); }
    if k1.OnuList? { SignedDecChars(k1.pon); assert s[n - 2] == SignedDec(k1.pon); }
    if k2.OnuList? { SignedDecChars(k2.pon); assert s[n - 2] == SignedDec(k2.pon); }
    if k1.PonList? { assert s[n - 2] == "pon"; }
    if k2.PonList? { assert s[n - 2] == "pon"; }
    assert |Tail(k1)| == |Tail(k2)|;
    assert a == s[..n - |Tail(k1)|] == b;
    assert Tail(k1) == s[n - |Tail(k1)|..] == Tail(k2);
  }

  lemma SameTail(k1: Key, k2: Key)
    requires k1.OfOlt() && k2.OfOlt()
    requires Tail(k1) == Tail(k2) && k1.olt == k2.olt
    ensures k1 == k2
  {
    assert Tail(k1)[|Tail(k1)| - 1] == Tail(k2)[|Tail(k2)| - 1];
    match k1
    case OnuList(_, b, p) =>
      assert Tail(k1)[1] == Tail(k2)[1] && Tail(k1)[3] == Tail(k2)[3];
      SignedDecInjective(b, k2.board); SignedDecInjective(p, k2.pon);
    case OnuNames(_, b, p) =>
      assert Tail(k1)[1] == Tail(k2)[1] && Tail(k1)[3] == Tail(k2)[3];
      SignedDecInjective(b, k2.board); SignedDecInjective(p, k2.pon);
    case OnuDetail(_, b, p, i) =>
      assert Tail(k1)[1] == Tail(k2)[1] && Tail(k1)[2] == Tail(k2)[2] && Tail(k1)[3] == Tail(k2)[3];
      SignedDecInjective(b, k2.board); SignedDecInjective(p, k2.pon); SignedDecInjective(i, k2.onuId);
    case PonList(_, b) =>
      assert Tail(k1)[1] == Tail(k2)[1];
      SignedDecInjective(b, k2.board);
    case _ =>
  }

  /** No two keys, of any families and for any OLT IDs, share a text. */
  lemma KeyTextInjective(k1: Key, k2: Key)
    requires KeyText(k1) == KeyText(k2)
    ensures k1 == k2
  {
    if k1.OfOlt() && k2.OfOlt() {
      KeyComponents(k1);
      KeyComponents(k2);
      TailDetermined(k1, k2, ["olt"] + Split(k1.olt, ':'), ["olt"] + Split(k2.olt, ':'));
      assert Split(k1.olt, ':') == (["olt"] + Split(k1.olt, ':'))[1..];
      assert Split(k2.olt, ':') == (["olt"] + Split(k2.olt, ':'))[1..];
      JoinSplit(k1.olt, ':');
      JoinSplit(k2.olt, ':');
      SameTail(k1, k2);
    } else {
      KeyTextHead(k1);
      KeyTextHead(k2);
    }
  }

  // ---- invalidation patterns

  predicate IsGlobChar(c: char) { c == '*' || c == '?' || c == '[' || c == ']' || c == '\\' }

  /** Redis glob matching: '*', '?' and backslash; bracket classes are not modelled. */
  predicate Glob(pattern: string, s: string)
    decreases |pattern| + |s|
  {
    if pattern == "" then s == ""
    else if pattern[0] == '*' then Glob(pattern[1..], s) || (s != "" && Glob(pattern, s[1..]))
    else if pattern[0] == '?' then s != "" && Glob(pattern[1..], s[1..])
    else if pattern[0] == '\\' && |pattern| > 1 then s != "" && s[0] == pattern[1] && Glob(pattern[2..], s[1..])
    else s != "" && s[0] == pattern[0] && Glob(pattern[1..], s[1..])
  }

  lemma {:induction false} GlobStar(s: string)
    ensures Glob("*", s)
  {
    if s != "" { GlobStar(s[1..]); }
  }

  /** A pattern of plain characters and one final star matches exactly the texts it is a prefix of. */
  lemma {:induction false} GlobPrefix(plain: string, s: string)
    requires forall i :: 0 <= i < |plain| ==> !IsGlobChar(plain[i])
    ensures Glob(plain + "*", s) <==> HasPrefix(s, plain)
  {
    if plain == "" {
      assert plain + "*" == "*";
      GlobStar(s);
    } else if s != "" && s[0] == plain[0] {
      assert (plain + "*")[1..] == plain[1..] + "*";
      GlobPrefix(plain[1..], s[1..]);
      assert plain == [plain[0]] + plain[1..] && s == [s[0]] + s[1..];
      PrefixAfter([s[0]], plain[1..], s[1..]);
    }
  }

  lemma {:induction false} GlobPlain(plain: string, pattern: string, s: string)
    requires forall i :: 0 <= i < |plain| ==> !IsGlobChar(plain[i])
    ensures Glob(plain + pattern, plain + s) <==> Glob(pattern, s)
  {
    if plain == "" {
      assert plain + pattern == pattern && plain + s == s;
    } else {
      assert (plain + pattern)[1..] == plain[1..] + pattern;
      assert (plain + s)[1..] == plain[1..] + s;
      GlobPlain(plain[1..], pattern, s);
    }
  }

  function OltPattern(olt: string): string { "olt:" + olt + ":*" }

  predicate GlobFree(olt: string) { forall i :: 0 <= i < |olt| ==> !IsGlobChar(olt[i]) }

  /** What the pattern of an OLT ID free of glob characters matches. */
  lemma PatternMatches(olt: string, k: Key)
    requires GlobFree(olt)
    ensures Glob(OltPattern(olt), KeyText(k)) <==> k.OfOlt() && HasPrefix(k.olt + ":" + Join(Tail(k), ':'), olt + ":")
  {
    var plain := "olt:" + olt + ":";
    assert OltPattern(olt) == plain + "*";
    GlobPrefix(plain, KeyText(k));
    if k.OfOlt() {
      KeyTextShape(k);
      assert plain == "olt:" + (olt + ":");
      PrefixAfter("olt:", olt + ":", k.olt + ":" + Join(Tail(k), ':'));
    } else {
      KeyTextHead(k);
    }
  }

  /** The ID is another OLT's, continued by the beginning of what follows that OLT's ID in a key. */
  ghost predicate RunsInto(olt: string, k: Key)
    requires k.OfOlt()
  {
    exists j :: 1 <= j < |Tail(k)| && RunsTo(olt, k, j)
  }

  predicate RunsTo(olt: string, k: Key, j: nat)
    requires k.OfOlt() && 1 <= j < |Tail(k)|
  {
    olt == k.olt + ":" + Join(Tail(k)[..j], ':')
  }

  lemma RunParts(olt: string, k: Key, j: nat)
    requires k.OfOlt() && 1 <= j < |Tail(k)|
    ensures RunsTo(olt, k, j) <==> Split(olt, ':') == Split(k.olt, ':') + Tail(k)[..j]
  {
    var path := Tail(k)[..j];
    TailColonFree(k);
    JoinSplit(olt, ':');
    JoinSplit(k.olt, ':');
    SplitJoin(path, ':');
    SplitAppend(k.olt, ':', Join(path, ':'));
    JoinAppend(Split(k.olt, ':'), path, ':');
  }

  /** Which keys invalidating an OLT removes, for any ID free of glob characters: its own, those of every
      OLT whose ID continues it after a colon, and those its ID runs into. */
  lemma InvalidationReach(olt: string, k: Key)
    requires GlobFree(olt)
    ensures Glob(OltPattern(olt), KeyText(k))
            <==> k.OfOlt() && (k.olt == olt || HasPrefix(k.olt, olt + ":") || RunsInto(olt, k))
  {
    PatternMatches(olt, k);
    if k.OfOlt() {
      ReachByParts(olt, k);
    }
  }

  lemma ReachByParts(olt: string, k: Key)
    requires k.OfOlt()
    ensures HasPrefix(k.olt + ":" + Join(Tail(k), ':'), olt + ":")
            <==> k.olt == olt || HasPrefix(k.olt, olt + ":") || RunsInto(olt, k)
  {
    var a, o, tail := Split(olt, ':'), Split(k.olt, ':'), Tail(k);
    WholeParts(k);
    PartsPrefix(olt, k.olt + ":" + Join(tail, ':'), ':');
    PartsPrefix(olt, k.olt, ':');
    SameParts(olt, k.olt);
    forall j | 1 <= j < |tail| ensures RunsTo(olt, k, j) <==> a == o + tail[..j] {
      RunParts(olt, k, j);
    }
    FirstParts(a, o, tail);
  }

  lemma WholeParts(k: Key)
    requires k.OfOlt()
    ensures Split(k.olt + ":" + Join(Tail(k), ':'), ':') == Split(k.olt, ':') + Tail(k)
  {
    TailColonFree(k);
    SplitJoin(Tail(k), ':');
    SplitAppend(k.olt, ':', Join(Tail(k), ':'));
  }

  lemma SameParts(a: string, b: string)
    ensures Split(a, ':') == Split(b, ':') <==> a == b
  {
    JoinSplit(a, ':');
    JoinSplit(b, ':');
  }

  /** Some but not all of the parts of two sequences in a row. */
  lemma FirstParts(a: seq<string>, o: seq<string>, tail: seq<string>)
    requires tail != []
    ensures |a| < |o| + |tail| && (o + tail)[..|a|] == a
            <==> a == o || (|a| < |o| && o[..|a|] == a) || exists j :: 1 <= j < |tail| && a == o + tail[..j]
  {
    assert |a| <= |o| ==> (o + tail)[..|a|] == o[..|a|];
    assert |o| < |a| < |o| + |tail| ==> (o + tail)[..|a|] == o + tail[..|a| - |o|];
    assert o[..|o|] == o;
  }

  lemma RunHasColon(olt: string, k: Key, j: nat)
    requires k.OfOlt() && 1 <= j < |Tail(k)|
    ensures RunsTo(olt, k, j) ==> ':' in olt
  {
    assert (k.olt + ":" + Join(Tail(k)[..j], ':'))[|k.olt|] == ':';
  }

  /** With colon-free OLT IDs throughout, invalidation removes exactly the OLT's own keys. */
  lemma InvalidationExact(olt: string, k: Key)
    requires GlobFree(olt) && ':' !in olt
    requires k.OfOlt() ==> ':' !in k.olt
    ensures Glob(OltPattern(olt), KeyText(k)) <==> k.OfOlt() && k.olt == olt
  {
    InvalidationReach(olt, k);
    if k.OfOlt() {
      if HasPrefix(k.olt, olt + ":") { PrefixHolds(k.olt, olt, ':'); }
      forall j | 1 <= j < |Tail(k)| ensures !RunsTo(olt, k, j) {
        RunHasColon(olt, k, j);
      }
    }
  }

  lemma PrefixHolds(s: string, p: string, c: char)
    requires HasPrefix(s, p + [c])
    ensures c in s
  {
    assert s[|p|] == c;
  }

  // ---- which IDs reach which

  ghost predicate Number(s: string) { exists i :: SignedDec(i) == s }

  /** What can follow an OLT ID in a key without completing it. */
  ghost predicate KeyPath(path: seq<string>) {
    || path == ["board"] || path == ["onu"]
    || (|path| == 2 && path[0] in ["board", "onu"] && Number(path[1]))
    || (|path| == 3 && path[0] == "board" && Number(path[1]) && path[2] == "pon")
    || (|path| == 3 && path[0] == "onu" && Number(path[1]) && Number(path[2]))
    || (|path| == 4 && path[0] == "board" && Number(path[1]) && path[2] == "pon" && Number(path[3]))
  }

  lemma TailPath(k: Key, j: nat)
    requires k.OfOlt() && 1 <= j < |Tail(k)|
    ensures KeyPath(Tail(k)[..j])
  {
    var path := Tail(k)[..j];
    assert forall i :: 0 <= i < j ==> path[i] == Tail(k)[i];
    if k.OnuDetail? {
      assert Number(SignedDec(k.board)) && Number(SignedDec(k.pon));
    } else {
      assert Number(SignedDec(k.board));
      if !k.PonList? { assert Number(SignedDec(k.pon)); }
    }
  }

  lemma PathTail(olt: string, path: seq<string>) returns (k: Key)
    requires KeyPath(path)
    ensures k.OfOlt() && k.olt == olt && 1 <= |path| < |Tail(k)| && Tail(k)[..|path|] == path
  {
    var b, p := 0, 0;
    if |path| >= 2 { b :| SignedDec(b) == path[1]; }
    if path[0] == "onu" {
      if |path| == 3 { p :| SignedDec(p) == path[2]; }
      k := OnuDetail(olt, b, p, 0);
    } else {
      if |path| == 4 { p :| SignedDec(p) == path[3]; }
      k := OnuList(olt, b, p);
    }
  }

  /** Invalidating one OLT removes some key of another exactly when the other's ID continues it after a
      colon, or its ID continues the other's with the beginning of a key. */
  lemma InvalidationCrosses(olt: string, other: string)
    requires GlobFree(olt) && olt != other
    ensures (exists k: Key :: k.OfOlt() && k.olt == other && Glob(OltPattern(olt), KeyText(k)))
            <==> HasPrefix(other, olt + ":") || exists path :: KeyPath(path) && olt == other + ":" + Join(path, ':')
  {
    if k: Key :| k.OfOlt() && k.olt == other && Glob(OltPattern(olt), KeyText(k)) {
      InvalidationReach(olt, k);
      if RunsInto(olt, k) {
        var j :| 1 <= j < |Tail(k)| && RunsTo(olt, k, j);
        TailPath(k, j);
      }
    }
    if HasPrefix(other, olt + ":") {
      InvalidationReach(olt, OltInfo(other));
    }
    if path :| KeyPath(path) && olt == other + ":" + Join(path, ':') {
      var k := PathTail(other, path);
      assert RunsTo(olt, k, |path|);
      InvalidationReach(olt, k);
    }
  }

  /** The ID with every wildcard taken for a letter. */
  function Tamed(olt: string): (r: string)
    ensures |r| == |olt|
    ensures forall i :: 0 <= i < |olt| ==> r[i] == if olt[i] == '*' || olt[i] == '?' then 'x' else olt[i]
  {
    seq(|olt|, i requires 0 <= i < |olt| => if olt[i] == '*' || olt[i] == '?' then 'x' else olt[i])
  }

  lemma {:induction false} GlobTamed(olt: string, pattern: string, s: string)
    requires Glob(pattern, s) && '\\' !in olt
    ensures Glob(olt + pattern, Tamed(olt) + s)
  {
    if olt == "" {
      assert olt + pattern == pattern && Tamed(olt) + s == s;
    } else {
      GlobTamed(olt[1..], pattern, s);
      assert (olt + pattern)[1..] == olt[1..] + pattern;
      assert (Tamed(olt) + s)[1..] == Tamed(olt[1..]) + s;
      if olt[0] == '*' {
        assert Glob(olt + pattern, Tamed(olt[1..]) + s);
      }
    }
  }

  /** For an ID without colons, brackets and backslashes, invalidation reaches a key of another OLT with a
      colon-free ID exactly when the ID holds a wildcard. */
  lemma WildcardsReachOthers(olt: string)
    requires ':' !in olt && '[' !in olt && ']' !in olt && '\\' !in olt
    ensures (exists k: Key :: k.OfOlt() && k.olt != olt && ':' !in k.olt && Glob(OltPattern(olt), KeyText(k)))
            <==> '*' in olt || '?' in olt
  {
    if '*' in olt || '?' in olt {
      var k := OltInfo(Tamed(olt));
      GlobPrefix(":", ":info");
      assert ":" + "*" == ":*";
      GlobTamed(olt, ":*", ":info");
      assert OltPattern(olt) == "olt:" + (olt + ":*") && KeyText(k) == "olt:" + (Tamed(olt) + ":info");
      GlobPlain("olt:", olt + ":*", Tamed(olt) + ":info");
      assert '*' !in Tamed(olt) && '?' !in Tamed(olt) && ':' !in Tamed(olt);
      assert k.olt != olt;
    } else {
      forall k: Key | k.OfOlt() && k.olt != olt && ':' !in k.olt ensures !Glob(OltPattern(olt), KeyText(k)) {
        InvalidationExact(olt, k);
      }
    }
  }

  /** One case of each kind: a continued ID, an ID that runs into a key, and a wildcard. */
  lemma InvalidationLeaks(board: int)
    ensures Glob(OltPattern("a"), KeyText(OltInfo("a:b")))
    ensures Glob(OltPattern("a:board"), KeyText(PonList("a", board)))
    ensures Glob(OltPattern("a?"), KeyText(OltInfo("ab")))
  {
    assert HasPrefix("a:b", "a" + ":");
    InvalidationReach("a", OltInfo("a:b"));
    var k := PonList("a", board);
    assert Tail(k)[..1] == ["board"] && Join(["board"], ':') == "board";
    assert RunsTo("a:board", k, 1);
    InvalidationReach("a:board", k);
    assert OltPattern("a?") == "olt:a" + "?:*" && KeyText(OltInfo("ab")) == "olt:a" + "b:info";
    GlobPlain("olt:a", "?:*", "b:info");
    assert "?:*"[1..] == ":" + "*" && "b:info"[1..] == ":" + "info";
    GlobPrefix(":", ":info");
  }
}
