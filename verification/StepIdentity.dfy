/** What the digest of a sampling stage is taken of, and how much of it the digest determines. */
module StepIdentity {
  import opened Basics
  import opened Decimal
  import Contexts
  import MemoryPlan

  /** The settings a process samples under: placement tier, tiling, and the versions of its two libraries. */
  datatype Settings = Settings(attempt: Option<MemoryPlan.Tier>, knobs: MemoryPlan.Knobs, diffusers: string, torch: string)
  {
    /** The versions as the digest joins them. */
    function Versions(): string { diffusers + torch }
  }

  /** The settings of the two passes of a window; a single pass uses `refine` alone. */
  datatype Config = Config(preview: Settings, refine: Settings)

  /** The stream fed to the digest: characters, and the 64-character digests, which are taken whole. */
  datatype Token = Letter(c: char) | Request(identity: string) | Tail(digest: Contexts.Digest<seq<Byte>>)

  type Identity = Contexts.Digest<seq<Token>>

  function Letters(s: string): (r: seq<Token>)
    ensures |r| == |s| && forall i :: 0 <= i < |s| ==> r[i] == Letter(s[i])
  {
    seq(|s|, i requires 0 <= i < |s| => Letter(s[i]))
  }

  function Number(n: nat): (r: string)
    ensures |r| == |Str(n)| && forall i :: 0 <= i < |r| ==> r[i] as int == Str(n)[i]
  {
    var s := Str(n);
    seq(|s|, i requires 0 <= i < |s| => s[i] as char)
  }

  function AttemptName(attempt: Option<MemoryPlan.Tier>): string {
    if attempt.None? then "" else MemoryPlan.Name(attempt.value)
  }

  function LowmemName(lowmem: MemoryPlan.Lowmem): string {
    match lowmem
    case AutoTiles => "auto"
    case Off => "off"
    case Force => "force"
  }

  /** Attempt and low-memory mode side by side, each knob ended by NUL, then both versions side by side. */
  function SettingsText(s: Settings): string {
    AttemptName(s.attempt) + LowmemName(s.knobs.lowmem)
    + ("\0" + (Number(s.knobs.query) + ("\0" + (Number(s.knobs.heads) + ("\0" + (Number(s.knobs.ff) + ("\0" + s.Versions())))))))
  }

  /** Everything the identity of a stage is taken of. */
  function StageStream(request: string, stage: string, model: string, tail: Option<Contexts.Digest<seq<Byte>>>, s: Settings): seq<Token> {
    [Request(request)] + Letters(stage) + Letters(model) + (if tail.None? then [] else [Tail(tail.value)]) + Letters(SettingsText(s))
  }

  predicate NoNul(s: string) {
    '\0' !in s
  }

  lemma LettersInjective(a: string, b: string)
    requires Letters(a) == Letters(b)
    ensures a == b
  {
    assert |a| == |Letters(a)| == |Letters(b)| == |b|;
    forall i | 0 <= i < |a|
      ensures a[i] == b[i]
    {
      assert Letters(a)[i] == Letters(b)[i];
    }
  }

  /** A text without NUL before a NUL is determined by the whole. */
  lemma NulSplits(a: string, x: string, b: string, y: string)
    requires NoNul(a) && NoNul(b) && a + ("\0" + x) == b + ("\0" + y)
    ensures a == b && x == y
  {
    FirstNul(a, x);
    FirstNul(b, y);
    var s := a + ("\0" + x);
    assert |a| == |b|;
    assert s[..|a|] == a && s[..|b|] == b;
    assert s[|a| + 1..] == x && s[|b| + 1..] == y;
  }

  lemma FirstNul(a: string, x: string)
    requires NoNul(a)
    ensures
      var s := a + ("\0" + x);
      s[|a|] == '\0' && forall i :: 0 <= i < |a| ==> s[i] != '\0'
  {
  }

  lemma {:induction false} StrDigits(n: nat, i: nat)
    requires i < |Str(n)|
    ensures 48 <= Str(n)[i] <= 57
  {
    if n >= 10 && i < |Str(n)| - 1 {
      StrDigits(n / 10, i);
    }
  }

  lemma NumberHasNoNul(n: nat)
    ensures NoNul(Number(n))
  {
    forall i | 0 <= i < |Number(n)|
      ensures Number(n)[i] != '\0'
    {
      StrDigits(n, i);
    }
  }

  lemma NumberInjective(a: nat, b: nat)
    requires Number(a) == Number(b)
    ensures a == b
  {
    forall i | 0 <= i < |Str(a)|
      ensures Str(a)[i] == Str(b)[i]
    {
      assert Number(a)[i] == Number(b)[i];
    }
    StrInjective(a, b);
  }

  /** The three mode names end differently, so the joined text determines both names. */
  lemma NamesSplit(a: Option<MemoryPlan.Tier>, x: MemoryPlan.Lowmem, b: Option<MemoryPlan.Tier>, y: MemoryPlan.Lowmem)
    requires AttemptName(a) + LowmemName(x) == AttemptName(b) + LowmemName(y)
    ensures a == b && x == y
  {
    var s, t := AttemptName(a) + LowmemName(x), AttemptName(b) + LowmemName(y);
    LastLetter(x);
    LastLetter(y);
    assert s[|s| - 1] == LowmemName(x)[|LowmemName(x)| - 1] && t[|t| - 1] == LowmemName(y)[|LowmemName(y)| - 1];
    assert x == y;
    var n := |LowmemName(x)|;
    assert s[..|s| - n] == AttemptName(a) && t[..|t| - n] == AttemptName(b);
    AttemptInjective(a, b);
  }

  lemma LastLetter(x: MemoryPlan.Lowmem)
    ensures LowmemName(x) != ""
    ensures LowmemName(x)[|LowmemName(x)| - 1] == (match x case AutoTiles => 'o' case Off => 'f' case Force => 'e')
  {
  }

  lemma AttemptInjective(a: Option<MemoryPlan.Tier>, b: Option<MemoryPlan.Tier>)
    requires AttemptName(a) == AttemptName(b)
    ensures a == b
  {
    if a.Some? {
      NameNotEmpty(a.value);
    }
    if b.Some? {
      NameNotEmpty(b.value);
    }
    hide MemoryPlan.Name, MemoryPlan.FlagsOf;
    if a.Some? && b.Some? {
      MemoryPlan.FlagsIdentifyTiers(a.value, b.value);
    }
  }

  lemma NameNotEmpty(tier: MemoryPlan.Tier)
    ensures MemoryPlan.Name(tier) != ""
  {
  }

  lemma NamesHaveNoNul(a: Option<MemoryPlan.Tier>, x: MemoryPlan.Lowmem)
    ensures NoNul(AttemptName(a) + LowmemName(x))
  {
    var s, t := AttemptName(a), LowmemName(x);
    assert NoNul(t);
    assert NoNul(s);
  }

  /** Everything but the split of the two versions. */
  predicate Same(s: Settings, t: Settings) {
    s.attempt == t.attempt && s.knobs == t.knobs && s.Versions() == t.Versions()
  }

  /** The text determines the settings but for where the first version ends. */
  lemma SettingsTextIff(s: Settings, t: Settings)
    ensures SettingsText(s) == SettingsText(t) <==> Same(s, t)
  {
    if SettingsText(s) == SettingsText(t) {
      SettingsRead(s, t);
    }
  }

  lemma SettingsRead(s: Settings, t: Settings)
    requires SettingsText(s) == SettingsText(t)
    ensures Same(s, t)
  {
    NamesHaveNoNul(s.attempt, s.knobs.lowmem);
    NamesHaveNoNul(t.attempt, t.knobs.lowmem);
    hide AttemptName, LowmemName, Number, NoNul, Settings.Versions;
    NumberHasNoNul(s.knobs.query);
    NumberHasNoNul(t.knobs.query);
    NumberHasNoNul(s.knobs.heads);
    NumberHasNoNul(t.knobs.heads);
    NumberHasNoNul(s.knobs.ff);
    NumberHasNoNul(t.knobs.ff);
    var fs, ft := Number(s.knobs.ff) + ("\0" + s.Versions()), Number(t.knobs.ff) + ("\0" + t.Versions());
    var hs, ht := Number(s.knobs.heads) + ("\0" + fs), Number(t.knobs.heads) + ("\0" + ft);
    var qs, qt := Number(s.knobs.query) + ("\0" + hs), Number(t.knobs.query) + ("\0" + ht);
    NulSplits(AttemptName(s.attempt) + LowmemName(s.knobs.lowmem), qs, AttemptName(t.attempt) + LowmemName(t.knobs.lowmem), qt);
    NulSplits(Number(s.knobs.query), hs, Number(t.knobs.query), ht);
    NulSplits(Number(s.knobs.heads), fs, Number(t.knobs.heads), ft);
    NulSplits(Number(s.knobs.ff), s.Versions(), Number(t.knobs.ff), t.Versions());
    NamesSplit(s.attempt, s.knobs.lowmem, t.attempt, t.knobs.lowmem);
    NumberInjective(s.knobs.query, t.knobs.query);
    NumberInjective(s.knobs.heads, t.knobs.heads);
    NumberInjective(s.knobs.ff, t.knobs.ff);
  }

  /** Settings with the same text are the same settings if and only if their first versions are equally long. */
  lemma SameSettingsIff(s: Settings, t: Settings)
    requires Same(s, t)
    ensures s == t <==> |s.diffusers| == |t.diffusers|
  {
    if |s.diffusers| == |t.diffusers| {
      assert s.diffusers == s.Versions()[..|s.diffusers|] && t.diffusers == t.Versions()[..|t.diffusers|];
      assert s.torch == s.Versions()[|s.diffusers|..] && t.torch == t.Versions()[|t.diffusers|..];
    }
  }

  lemma PrefixCancels<T>(p: seq<T>, a: seq<T>, b: seq<T>)
    requires p + a == p + b
    ensures a == b
  {
    assert (p + a)[|p|..] == a && (p + b)[|p|..] == b;
  }

  /** For one stage of one model the stream determines request, tail and settings, but for the split of the versions,
      although almost nothing separates them. */
  lemma StageStreamInjective(
    stage: string, model: string, r1: string, t1: Option<Contexts.Digest<seq<Byte>>>, s1: Settings,
    r2: string, t2: Option<Contexts.Digest<seq<Byte>>>, s2: Settings)
    requires StageStream(r1, stage, model, t1, s1) == StageStream(r2, stage, model, t2, s2)
    ensures r1 == r2 && t1 == t2 && Same(s1, s2)
  {
    hide SettingsText;
    var a, b := StageStream(r1, stage, model, t1, s1), StageStream(r2, stage, model, t2, s2);
    assert a[0] == Request(r1) && b[0] == Request(r2);
    var p := [Request(r1)] + Letters(stage) + Letters(model);
    var x, y := if t1.None? then [] else [Tail(t1.value)], if t2.None? then [] else [Tail(t2.value)];
    assert a == p + (x + Letters(SettingsText(s1))) && b == p + (y + Letters(SettingsText(s2)));
    PrefixCancels(p, x + Letters(SettingsText(s1)), y + Letters(SettingsText(s2)));
    TextNotEmpty(s1);
    TextNotEmpty(s2);
    var u, v := x + Letters(SettingsText(s1)), y + Letters(SettingsText(s2));
    assert u[0] == if t1.Some? then Tail(t1.value) else Letter(SettingsText(s1)[0]);
    assert v[0] == if t2.Some? then Tail(t2.value) else Letter(SettingsText(s2)[0]);
    PrefixCancels(x, Letters(SettingsText(s1)), Letters(SettingsText(s2)));
    LettersInjective(SettingsText(s1), SettingsText(s2));
    SettingsRead(s1, s2);
  }

  lemma TextNotEmpty(s: Settings)
    ensures SettingsText(s) != ""
  {
  }

  /** Moving the boundary between the two versions gives other settings with the same stream. */
  lemma VersionsCanAlias(s: Settings, request: string, stage: string, model: string, tail: Option<Contexts.Digest<seq<Byte>>>)
    requires s.torch != ""
    ensures
      var t := s.(diffusers := s.diffusers + s.torch[..1], torch := s.torch[1..]);
      t != s && StageStream(request, stage, model, tail, s) == StageStream(request, stage, model, tail, t)
  {
    var t := s.(diffusers := s.diffusers + s.torch[..1], torch := s.torch[1..]);
    assert s.torch == s.torch[..1] + s.torch[1..];
    assert t.Versions() == s.Versions();
    assert |t.diffusers| != |s.diffusers|;
    hide Letters;
    assert SettingsText(s) == SettingsText(t);
  }

  /** Settings no two of which have the same text. */
  ghost predicate Distinct(known: iset<Settings>) {
    forall s, t :: s in known && t in known && Same(s, t) ==> s == t
  }

  /** Versions of one length are always distinct. */
  lemma EqualLengthsAreDistinct(length: nat)
    ensures Distinct(iset s: Settings | |s.diffusers| == length)
  {
    forall s: Settings, t: Settings | |s.diffusers| == length && |t.diffusers| == length && Same(s, t)
      ensures s == t
    {
      SameSettingsIff(s, t);
    }
  }
}
