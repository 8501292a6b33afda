/** Placeholder replacement in hook commands and in the recovery script. */
module Templates {
  import opened Topology

  /** Replaces every occurrence of `pattern`, leftmost first and without overlap. */
  function ReplaceAll(s: string, pattern: string, value: string): string
    requires pattern != ""
  {
    if s == "" then ""
    else if pattern <= s then value + ReplaceAll(s[|pattern|..], pattern, value)
    else [s[0]] + ReplaceAll(s[1..], pattern, value)
  }

  predicate IsNameChar(c: char) {
    'a' <= c <= 'z' || 'A' <= c <= 'Z' || c == '_'
  }

  predicate IsName(s: string) {
    s != "" && forall k :: 0 <= k < |s| ==> IsNameChar(s[k])
  }

  /** The name characters after the '{' at `k` end at `e`, and they are not one of the
      `names` closed by a '}'. */
  ghost predicate RunEndsAt(s: string, k: nat, e: nat, names: set<string>) {
    && k < e < |s|
    && !IsNameChar(s[e])
    && (forall j :: k < j < e ==> IsNameChar(s[j]))
    && !(s[e] == '}' && s[k + 1..e] in names)
  }

  /** No placeholder starts with the '{' at `k`, and the text itself shows it. */
  ghost predicate NotAPlaceholder(s: string, k: nat, names: set<string>) {
    exists e :: RunEndsAt(s, k, e, names)
  }

  /** No '{' of the text begins a placeholder, whatever text follows. */
  ghost predicate Inert(s: string, names: set<string>) {
    forall k :: 0 <= k < |s| && s[k] == '{' ==> NotAPlaceholder(s, k, names)
  }

  lemma SliceOfTail(s: string, i: nat, j: nat)
    requires i <= j < |s|
    ensures s[1..][i..j] == s[i + 1..j + 1]
  {
  }

  lemma RunInTail(s: string, k: nat, e: nat, names: set<string>)
    requires RunEndsAt(s, k + 1, e, names)
    ensures RunEndsAt(s[1..], k, e - 1, names)
  {
    SliceOfTail(s, k + 1, e - 1);
    assert s[1..][e - 1] == s[e] && forall j :: k < j < e - 1 ==> s[1..][j] == s[j + 1];
  }

  lemma InertTail(s: string, names: set<string>)
    requires s != "" && Inert(s, names)
    ensures Inert(s[1..], names)
  {
    hide RunEndsAt;
    var t := s[1..];
    forall k | 0 <= k < |t| && t[k] == '{' ensures NotAPlaceholder(t, k, names) {
      assert NotAPlaceholder(s, k + 1, names);
      var e: nat :| RunEndsAt(s, k + 1, e, names);
      RunInTail(s, k, e, names);
    }
  }

  /** Where a placeholder matches at a '{', its name is the run of name characters there. */
  lemma MatchIsTheRun(text: string, rest: string, name: string, e: nat)
    requires 0 < e < |text| && !IsNameChar(text[e]) && forall j :: 0 < j < e ==> IsNameChar(text[j])
    requires IsName(name) && Placeholder(name) <= text + rest
    ensures text[e] == '}' && text[1..e] == name
  {
    var s, p := text + rest, Placeholder(name);
    assert forall k :: 0 < k <= |name| ==> s[k] == p[k] == name[k - 1];
    assert s[|name| + 1] == p[|name| + 1] == '}';
    assert forall k :: 0 <= k < |text| ==> s[k] == text[k];
    assert e > |name| by { assert forall k :: 0 < k <= |name| ==> IsNameChar(s[k]); }
    assert e <= |name| + 1;
  }

  lemma NoPlaceholderAtBrace(text: string, rest: string, name: string, names: set<string>)
    requires text != "" && text[0] == '{' && NotAPlaceholder(text, 0, names) && IsName(name) && name in names
    ensures !(Placeholder(name) <= text + rest)
  {
    var e: nat :| RunEndsAt(text, 0, e, names);
    if Placeholder(name) <= text + rest {
      MatchIsTheRun(text, rest, name, e);
      assert false;
    }
  }

  datatype Segment = Literal(text: string) | Hole(name: string)
  {
    function Text(): string {
      match this
      case Literal(text) => text
      case Hole(name) => Placeholder(name)
    }

    ghost predicate WellFormed(names: set<string>) {
      match this
      case Literal(text) => Inert(text, names)
      case Hole(name) => IsName(name)
    }
  }

  function Placeholder(name: string): string {
    "{" + name + "}"
  }

  function Render(segments: seq<Segment>): string {
    if segments == [] then "" else segments[0].Text() + Render(segments[1..])
  }

  ghost predicate WellFormed(segments: seq<Segment>, names: set<string>) {
    forall k :: 0 <= k < |segments| ==> segments[k].WellFormed(names)
  }

  datatype Substitution = Substitution(name: string, value: string)

  /** The substitutions use the given names and bring no placeholder in with their values. */
  ghost predicate Proper(subs: seq<Substitution>, names: set<string>) {
    forall k :: 0 <= k < |subs| ==>
      IsName(subs[k].name) && subs[k].name in names && Inert(subs[k].value, names)
  }

  /** One replacement after the other, each over the result of the one before. */
  function ReplaceInTurn(s: string, subs: seq<Substitution>): string
    decreases |subs|
  {
    if subs == [] then s
    else ReplaceInTurn(ReplaceAll(s, Placeholder(subs[0].name), subs[0].value), subs[1..])
  }

  function ValueOf(subs: seq<Substitution>, name: string): Option<string> {
    if subs == [] then None
    else if subs[0].name == name then Some(subs[0].value)
    else ValueOf(subs[1..], name)
  }

  function FillOne(s: Segment, subs: seq<Substitution>): Segment {
    match s
    case Literal(_) => s
    case Hole(name) =>
      match ValueOf(subs, name)
      case Some(value) => Literal(value)
      case None => s
  }

  /** All holes at once; a hole without a value stays. */
  function Fill(segments: seq<Segment>, subs: seq<Substitution>): (r: seq<Segment>)
    ensures |r| == |segments|
    ensures forall k :: 0 <= k < |r| ==> r[k] == FillOne(segments[k], subs)
  {
    seq(|segments|, k requires 0 <= k < |segments| => FillOne(segments[k], subs))
  }

  function Braces(s: string): nat {
    if s == "" then 0 else (if s[0] == '{' then 1 else 0) + Braces(s[1..])
  }

  lemma {:induction false} BracesAdd(a: string, b: string)
    ensures Braces(a + b) == Braces(a) + Braces(b)
  {
    if a == "" {
      assert a + b == b;
    } else {
      assert (a + b)[1..] == a[1..] + b;
      BracesAdd(a[1..], b);
    }
  }

  lemma {:induction false} BraceFreeHasNone(s: string)
    requires '{' !in s
    ensures Braces(s) == 0
  {
    if s != "" {
      BraceFreeHasNone(s[1..]);
    }
  }

  /** At how many positions the placeholder stands in `s`. */
  function Occurrences(s: string, name: string): nat {
    if s == "" then 0 else (if Placeholder(name) <= s then 1 else 0) + Occurrences(s[1..], name)
  }

  lemma {:induction false} OccurrencesOfTail(a: string, b: string, name: string)
    ensures Occurrences(a + b, name) >= Occurrences(b, name)
  {
    if a == "" {
      assert a + b == b;
    } else {
      assert (a + b)[1..] == a[1..] + b;
      OccurrencesOfTail(a[1..], b, name);
    }
  }

  lemma {:induction false} NoneStartsWithoutBrace(a: string, b: string, name: string)
    requires '{' !in a
    ensures Occurrences(a + b, name) == Occurrences(b, name)
  {
    if a == "" {
      assert a + b == b;
    } else {
      assert (a + b)[1..] == a[1..] + b;
      assert (a + b)[0] == a[0] && Placeholder(name)[0] == '{';
      NoneStartsWithoutBrace(a[1..], b, name);
    }
  }

  /** A placeholder holds one '{', at its start, so placeholders never overlap. */
  lemma PlaceholderCounts(m: string, rest: string, name: string)
    requires IsName(m) && IsName(name)
    ensures Occurrences(Placeholder(m) + rest, name) == (if m == name then 1 else 0) + Occurrences(rest, name)
    ensures Braces(Placeholder(m) + rest) == 1 + Braces(rest)
  {
    var s, tail := Placeholder(m) + rest, m + "}";
    assert s[0] == '{' && s[1..] == tail + rest;
    PlaceholderIsPrefixIff(m, name, rest);
    NoneStartsWithoutBrace(tail, rest, name);
    BraceFreeHasNone(tail);
    BracesAdd(tail, rest);
  }

  lemma PlaceholderIsPrefixIff(m: string, name: string, rest: string)
    requires IsName(m) && IsName(name)
    ensures Placeholder(name) <= Placeholder(m) + rest <==> name == m
  {
    var s, p := Placeholder(m) + rest, Placeholder(name);
    if p <= s {
      assert forall k :: 0 <= k < |name| ==> p[k + 1] == name[k] && s[k + 1] == name[k];
      assert forall k :: 0 <= k < |m| ==> s[k + 1] == m[k];
      assert p[|name| + 1] == '}' == s[|name| + 1];
      assert s[|m| + 1] == '}';
      assert |name| == |m|;
    }
  }

  lemma StartsWithPlaceholder(s: string, name: string)
    requires Placeholder(name) <= s
    ensures s == Placeholder(name) + s[|Placeholder(name)|..]
  {
  }

  /** Replacing a placeholder by a value without '{' removes one '{' per occurrence. */
  lemma {:induction false} ReplacingRemovesBraces(s: string, name: string, value: string)
    requires IsName(name) && '{' !in value
    ensures Braces(ReplaceAll(s, Placeholder(name), value)) + Occurrences(s, name) == Braces(s)
    decreases |s|
  {
    var p := Placeholder(name);
    if s == "" {
    } else if p <= s {
      var rest := s[|p|..];
      ReplacingRemovesBraces(rest, name, value);
      StartsWithPlaceholder(s, name);
      PlaceholderCounts(name, rest, name);
      BraceFreeHasNone(value);
      BracesAdd(value, ReplaceAll(rest, p, value));
    } else {
      ReplacingRemovesBraces(s[1..], name, value);
      BracesAdd([s[0]], ReplaceAll(s[1..], p, value));
      assert [s[0]][1..] == "";
    }
  }

  lemma {:induction false} ReplacingKeepsBraceFreePrefix(s: string, name: string, value: string, q: string)
    requires q <= s && '{' !in q
    ensures q <= ReplaceAll(s, Placeholder(name), value)
  {
    if q != "" {
      assert s[0] == q[0] && Placeholder(name)[0] == '{';
      assert q[1..] <= s[1..];
      ReplacingKeepsBraceFreePrefix(s[1..], name, value, q[1..]);
    }
  }

  /** A placeholder at the start survives the replacement of another in what follows. */
  lemma ReplacingKeepsFirst(s: string, name: string, value: string, other: string)
    requires s != "" && Placeholder(other) <= s && IsName(other)
    ensures Placeholder(other) <= [s[0]] + ReplaceAll(s[1..], Placeholder(name), value)
  {
    hide ReplaceAll;
    var tail := other + "}";
    assert Placeholder(other) == ['{'] + tail && s[0] == '{';
    assert Placeholder(other)[1..] == tail;
    assert tail <= s[1..];
    ReplacingKeepsBraceFreePrefix(s[1..], name, value, tail);
  }

  /** Replacing one placeholder destroys no other, whatever the value. */
  lemma {:induction false} ReplacingKeepsOthers(s: string, name: string, value: string, other: string)
    requires IsName(name) && IsName(other) && name != other
    ensures Occurrences(ReplaceAll(s, Placeholder(name), value), other) >= Occurrences(s, other)
    decreases |s|
  {
    hide IsName;
    var p := Placeholder(name);
    if s == "" {
    } else if p <= s {
      var rest := s[|p|..];
      ReplacingKeepsOthers(rest, name, value, other);
      StartsWithPlaceholder(s, name);
      PlaceholderCounts(name, rest, other);
      OccurrencesOfTail(value, ReplaceAll(rest, p, value), other);
    } else {
      ReplacingKeepsOthers(s[1..], name, value, other);
      var r := ReplaceAll(s[1..], p, value);
      if Placeholder(other) <= s {
        ReplacingKeepsFirst(s, name, value, other);
      }
      assert ([s[0]] + r)[1..] == r;
    }
  }

  function Holes(segments: seq<Segment>, name: string): nat {
    if segments == [] then 0 else (if segments[0] == Hole(name) then 1 else 0) + Holes(segments[1..], name)
  }

  ghost predicate HolesNamed(segments: seq<Segment>) {
    forall k :: 0 <= k < |segments| && segments[k].Hole? ==> IsName(segments[k].name)
  }

  /** The placeholder stands in the holes of the template and nowhere else. */
  ghost predicate OnlyInHoles(segments: seq<Segment>, name: string) {
    Occurrences(Render(segments), name) == Holes(segments, name)
  }

  lemma {:induction false} HolesOccur(segments: seq<Segment>, name: string)
    requires HolesNamed(segments) && IsName(name)
    ensures Occurrences(Render(segments), name) >= Holes(segments, name)
  {
    if segments != [] {
      var rest := Render(segments[1..]);
      HolesOccur(segments[1..], name);
      OccurrencesOfTail(segments[0].Text(), rest, name);
      if segments[0].Hole? {
        PlaceholderCounts(segments[0].name, rest, name);
      }
    }
  }

  lemma {:induction false} SkipsWithoutOccurrence(text: string, rest: string, name: string, value: string)
    requires Occurrences(text + rest, name) == Occurrences(rest, name)
    ensures ReplaceAll(text + rest, Placeholder(name), value) == text + ReplaceAll(rest, Placeholder(name), value)
  {
    if text == "" {
      assert text + rest == rest;
    } else {
      assert (text + rest)[1..] == text[1..] + rest;
      OccurrencesOfTail(text[1..], rest, name);
      SkipsWithoutOccurrence(text[1..], rest, name, value);
    }
  }

  lemma ValueOfOne(sub: Substitution, name: string)
    ensures ValueOf([sub], name) == if sub.name == name then Some(sub.value) else None
  {
    assert [sub][1..] == [];
  }

  lemma FillingHole(rest: string, sub: Substitution)
    ensures ReplaceAll(Placeholder(sub.name) + rest, Placeholder(sub.name), sub.value)
         == sub.value + ReplaceAll(rest, Placeholder(sub.name), sub.value)
  {
    var p := Placeholder(sub.name);
    assert p <= p + rest && (p + rest)[|p|..] == rest;
  }

  /** Where a placeholder stands in holes only, replacing it fills exactly these. */
  lemma {:induction false} ReplacingFillsHoles(segments: seq<Segment>, sub: Substitution)
    requires HolesNamed(segments) && IsName(sub.name) && OnlyInHoles(segments, sub.name)
    ensures ReplaceAll(Render(segments), Placeholder(sub.name), sub.value) == Render(Fill(segments, [sub]))
  {
    if segments != [] {
      hide ReplaceAll, Occurrences, IsName;
      var first, rest := segments[0], Render(segments[1..]);
      ValueOfOne(sub, if first.Hole? then first.name else "");
      HolesOccur(segments[1..], sub.name);
      OccurrencesOfTail(first.Text(), rest, sub.name);
      if first.Hole? {
        PlaceholderCounts(first.name, rest, sub.name);
      }
      ReplacingFillsHoles(segments[1..], sub);
      assert Fill(segments, [sub])[1..] == Fill(segments[1..], [sub]);
      if first == Hole(sub.name) {
        FillingHole(rest, sub);
      } else {
        SkipsWithoutOccurrence(first.Text(), rest, sub.name, sub.value);
      }
    } else {
      ReplacingNothing(sub);
    }
  }

  lemma ReplacingNothing(sub: Substitution)
    ensures ReplaceAll("", Placeholder(sub.name), sub.value) == ""
  {
  }

  lemma {:induction false} InertAddsNothing(text: string, rest: string, name: string, names: set<string>)
    requires Inert(text, names) && IsName(name) && name in names
    ensures Occurrences(text + rest, name) == Occurrences(rest, name)
  {
    if text == "" {
      assert text + rest == rest;
    } else {
      hide Inert, NotAPlaceholder, IsName;
      InertHeadMatchesNothing(text, rest, name, names);
      assert (text + rest)[1..] == text[1..] + rest;
      InertTail(text, names);
      InertAddsNothing(text[1..], rest, name, names);
    }
  }

  lemma InertHeadMatchesNothing(text: string, rest: string, name: string, names: set<string>)
    requires text != "" && Inert(text, names) && IsName(name) && name in names
    ensures !(Placeholder(name) <= text + rest)
  {
    hide NotAPlaceholder, IsName;
    assert Placeholder(name)[0] == '{' && (text + rest)[0] == text[0];
    if text[0] == '{' {
      NoPlaceholderAtBrace(text, rest, name, names);
    }
  }

  lemma {:induction false} WellFormedOccursInHoles(segments: seq<Segment>, name: string, names: set<string>)
    requires WellFormed(segments, names) && IsName(name) && name in names
    ensures HolesNamed(segments) && OnlyInHoles(segments, name)
  {
    if segments != [] {
      hide Occurrences, Inert, IsName;
      var first, rest := segments[0], Render(segments[1..]);
      assert first.WellFormed(names);
      WellFormedOccursInHoles(segments[1..], name, names);
      match first
      case Literal(text) =>
        InertAddsNothing(text, rest, name, names);
      case Hole(m) =>
        PlaceholderCounts(m, rest, name);
    } else {
      assert Occurrences("", name) == 0;
    }
  }

  /** Replacing one placeholder in the rendered text fills exactly its holes. */
  lemma ReplacingFills(segments: seq<Segment>, sub: Substitution, names: set<string>)
    requires WellFormed(segments, names) && IsName(sub.name) && sub.name in names
    ensures ReplaceAll(Render(segments), Placeholder(sub.name), sub.value) == Render(Fill(segments, [sub]))
  {
    WellFormedOccursInHoles(segments, sub.name, names);
    ReplacingFillsHoles(segments, sub);
  }

  lemma FillsInTurn(segments: seq<Segment>, subs: seq<Substitution>)
    requires subs != []
    ensures Fill(Fill(segments, [subs[0]]), subs[1..]) == Fill(segments, subs)
  {
    var once := Fill(segments, [subs[0]]);
    forall k | 0 <= k < |segments| ensures FillOne(once[k], subs[1..]) == FillOne(segments[k], subs) {
      if segments[k].Hole? {
        ValueOfOne(subs[0], segments[k].name);
      }
    }
    assert Fill(once, subs[1..]) == Fill(segments, subs);
  }

  lemma FillingNothing(segments: seq<Segment>)
    ensures Fill(segments, []) == segments
  {
  }

  lemma FillingKeepsShape(segments: seq<Segment>, sub: Substitution, names: set<string>)
    ensures HolesNamed(segments) ==> HolesNamed(Fill(segments, [sub]))
    ensures WellFormed(segments, names) && Inert(sub.value, names) ==> WellFormed(Fill(segments, [sub]), names)
  {
    hide Inert, IsName;
    forall k | 0 <= k < |segments| && segments[k].Hole?
      ensures Fill(segments, [sub])[k] == if segments[k].name == sub.name then Literal(sub.value) else segments[k]
    {
      ValueOfOne(sub, segments[k].name);
    }
  }

  /** Replacing in turn equals substituting all placeholders at once: no value is mistaken
      for a placeholder, and none arises where a value meets its surroundings. */
  lemma {:induction false} InTurnIsAtOnce(segments: seq<Segment>, subs: seq<Substitution>, names: set<string>)
    requires WellFormed(segments, names) && Proper(subs, names)
    ensures ReplaceInTurn(Render(segments), subs) == Render(Fill(segments, subs))
    decreases |subs|
  {
    if subs == [] {
      FillingNothing(segments);
    } else {
      hide Inert, IsName, ReplaceAll, WellFormed;
      ReplacingFills(segments, subs[0], names);
      FillingKeepsShape(segments, subs[0], names);
      InTurnIsAtOnce(Fill(segments, [subs[0]]), subs[1..], names);
      FillsInTurn(segments, subs);
    }
  }

  /** Substitutions of different placeholders by values without '{'. */
  ghost predicate Plain(subs: seq<Substitution>) {
    && (forall k :: 0 <= k < |subs| ==> IsName(subs[k].name) && '{' !in subs[k].value)
    && (forall j, k :: 0 <= j < k < |subs| ==> subs[j].name != subs[k].name)
  }

  /** When the values before it are in place, each placeholder stands in holes only. */
  ghost predicate StandsInHoles(segments: seq<Segment>, subs: seq<Substitution>) {
    forall k :: 0 <= k < |subs| ==> OnlyInHoles(Fill(segments, subs[..k]), subs[k].name)
  }

  function AllOccurrences(s: string, subs: seq<Substitution>): nat {
    if subs == [] then 0 else Occurrences(s, subs[0].name) + AllOccurrences(s, subs[1..])
  }

  function AllHoles(segments: seq<Segment>, subs: seq<Substitution>): nat {
    if subs == [] then 0 else Holes(segments, subs[0].name) + AllHoles(segments, subs[1..])
  }

  lemma {:induction false} ReplacingKeepsAllOthers(s: string, name: string, value: string, subs: seq<Substitution>)
    requires IsName(name)
    requires forall k :: 0 <= k < |subs| ==> IsName(subs[k].name) && subs[k].name != name
    ensures AllOccurrences(ReplaceAll(s, Placeholder(name), value), subs) >= AllOccurrences(s, subs)
  {
    if subs != [] {
      ReplacingKeepsOthers(s, name, value, subs[0].name);
      ReplacingKeepsAllOthers(s, name, value, subs[1..]);
    }
  }

  /** In turn, at least every placeholder of the text is replaced. */
  lemma {:induction false} InTurnRemovesBraces(s: string, subs: seq<Substitution>)
    requires Plain(subs)
    ensures Braces(ReplaceInTurn(s, subs)) + AllOccurrences(s, subs) <= Braces(s)
    decreases |subs|
  {
    if subs != [] {
      hide IsName, ReplaceAll;
      ReplacingRemovesBraces(s, subs[0].name, subs[0].value);
      ReplacingKeepsAllOthers(s, subs[0].name, subs[0].value, subs[1..]);
      InTurnRemovesBraces(ReplaceAll(s, Placeholder(subs[0].name), subs[0].value), subs[1..]);
    }
  }

  lemma {:induction false} FillingRemovesBraces(segments: seq<Segment>, sub: Substitution)
    requires IsName(sub.name) && '{' !in sub.value
    ensures Braces(Render(Fill(segments, [sub]))) + Holes(segments, sub.name) == Braces(Render(segments))
  {
    if segments != [] {
      var first, rest := segments[0], segments[1..];
      ValueOfOne(sub, if first.Hole? then first.name else "");
      FillingRemovesBraces(rest, sub);
      assert Fill(segments, [sub])[1..] == Fill(rest, [sub]);
      BracesAdd(first.Text(), Render(rest));
      BracesAdd(FillOne(first, [sub]).Text(), Render(Fill(rest, [sub])));
      BraceFreeHasNone(sub.value);
      if first == Hole(sub.name) {
        PlaceholderCounts(sub.name, Render(rest), sub.name);
      }
    }
  }

  lemma {:induction false} FillingKeepsOtherHoles(segments: seq<Segment>, sub: Substitution, name: string)
    requires name != sub.name
    ensures Holes(Fill(segments, [sub]), name) == Holes(segments, name)
  {
    if segments != [] {
      ValueOfOne(sub, if segments[0].Hole? then segments[0].name else "");
      FillingKeepsOtherHoles(segments[1..], sub, name);
      assert Fill(segments, [sub])[1..] == Fill(segments[1..], [sub]);
    }
  }

  lemma {:induction false} FillingKeepsAllOtherHoles(segments: seq<Segment>, sub: Substitution, subs: seq<Substitution>)
    requires forall k :: 0 <= k < |subs| ==> subs[k].name != sub.name
    ensures AllHoles(Fill(segments, [sub]), subs) == AllHoles(segments, subs)
  {
    if subs != [] {
      FillingKeepsOtherHoles(segments, sub, subs[0].name);
      FillingKeepsAllOtherHoles(segments, sub, subs[1..]);
    }
  }

  /** At once, exactly the holes are replaced. */
  lemma {:induction false} AtOnceRemovesBraces(segments: seq<Segment>, subs: seq<Substitution>)
    requires Plain(subs)
    ensures Braces(Render(Fill(segments, subs))) + AllHoles(segments, subs) == Braces(Render(segments))
    decreases |subs|
  {
    if subs == [] {
      FillingNothing(segments);
    } else {
      hide IsName;
      FillingRemovesBraces(segments, subs[0]);
      FillingKeepsAllOtherHoles(segments, subs[0], subs[1..]);
      AtOnceRemovesBraces(Fill(segments, [subs[0]]), subs[1..]);
      FillsInTurn(segments, subs);
    }
  }

  lemma {:induction false} AllHolesOccur(segments: seq<Segment>, subs: seq<Substitution>)
    requires HolesNamed(segments) && forall k :: 0 <= k < |subs| ==> IsName(subs[k].name)
    ensures AllOccurrences(Render(segments), subs) >= AllHoles(segments, subs)
  {
    if subs != [] {
      HolesOccur(segments, subs[0].name);
      AllHolesOccur(segments, subs[1..]);
    }
  }

  lemma StandsInHolesStep(segments: seq<Segment>, subs: seq<Substitution>)
    requires subs != []
    ensures StandsInHoles(segments, subs) <==>
              && OnlyInHoles(segments, subs[0].name)
              && StandsInHoles(Fill(segments, [subs[0]]), subs[1..])
  {
    hide OnlyInHoles, Fill;
    var once, rest := Fill(segments, [subs[0]]), subs[1..];
    FillingNothing(segments);
    assert subs[..0] == [];
    forall k | 0 <= k < |rest| ensures Fill(once, rest[..k]) == Fill(segments, subs[..k + 1]) {
      assert subs[..k + 1][1..] == rest[..k] && subs[..k + 1][0] == subs[0];
      FillsInTurn(segments, subs[..k + 1]);
    }
    if StandsInHoles(segments, subs) {
      forall k | 0 <= k < |rest| ensures OnlyInHoles(Fill(once, rest[..k]), rest[k].name) {
        assert rest[k] == subs[k + 1];
      }
    }
    if StandsInHoles(once, rest) {
      forall k | 1 <= k < |subs| ensures OnlyInHoles(Fill(segments, subs[..k]), subs[k].name) {
        assert rest[k - 1] == subs[k] && Fill(once, rest[..k - 1]) == Fill(segments, subs[..k]);
      }
    }
  }

  /** With values without '{', replacing in turn equals substituting at once exactly when
      each placeholder stands in holes only by the time it is replaced. */
  lemma {:induction false} InTurnIsAtOnceIff(segments: seq<Segment>, subs: seq<Substitution>)
    requires HolesNamed(segments) && Plain(subs)
    ensures ReplaceInTurn(Render(segments), subs) == Render(Fill(segments, subs)) <==> StandsInHoles(segments, subs)
    decreases |subs|
  {
    if subs == [] {
      FillingNothing(segments);
    } else {
      hide IsName, ReplaceAll, OnlyInHoles, Render, Fill, StandsInHoles;
      StandsInHolesStep(segments, subs);
      if OnlyInHoles(segments, subs[0].name) {
        ReplacingFillsHoles(segments, subs[0]);
        FillingKeepsShape(segments, subs[0], {});
        InTurnIsAtOnceIff(Fill(segments, [subs[0]]), subs[1..]);
        FillsInTurn(segments, subs);
      } else {
        StrayPlaceholderShows(segments, subs);
      }
    }
  }

  /** A placeholder outside the holes costs the text a '{' too many. */
  lemma StrayPlaceholderShows(segments: seq<Segment>, subs: seq<Substitution>)
    requires HolesNamed(segments) && Plain(subs) && subs != []
    requires !OnlyInHoles(segments, subs[0].name)
    ensures ReplaceInTurn(Render(segments), subs) != Render(Fill(segments, subs))
  {
    hide IsName, ReplaceAll, ReplaceInTurn, Occurrences, Holes, Render, Braces, Fill;
    HolesOccur(segments, subs[0].name);
    AllHolesOccur(segments, subs[1..]);
    InTurnRemovesBraces(Render(segments), subs);
    AtOnceRemovesBraces(segments, subs);
  }

  lemma RenderThree(a: Segment, b: Segment, c: Segment)
    ensures Render([a, b, c]) == a.Text() + b.Text() + c.Text()
  {
    assert [a, b, c][1..] == [b, c] && [b, c][1..] == [c] && [c][1..] == [];
    assert Render([c]) == c.Text() + "";
  }

  /** A placeholder formed by values already in place does not stand in a hole. */
  lemma FormedPlaceholderIsStray(segments: seq<Segment>, subs: seq<Substitution>, k: nat)
    requires k < |subs| && IsName(subs[k].name)
    requires Fill(segments, subs[..k]) == [Literal("{"), Literal(subs[k].name), Literal("}")]
    ensures !StandsInHoles(segments, subs)
  {
    hide Fill, Render, IsName, Occurrences;
    var name := subs[k].name;
    var filled := [Literal("{"), Literal(name), Literal("}")];
    RenderThree(Literal("{"), Literal(name), Literal("}"));
    assert Render(filled) == Placeholder(name) + "";
    PlaceholderCounts(name, "", name);
    NoHoles(filled, name);
  }

  lemma {:induction false} NoHoles(segments: seq<Segment>, name: string)
    requires forall k :: 0 <= k < |segments| ==> segments[k].Literal?
    ensures Holes(segments, name) == 0
  {
    if segments != [] {
      NoHoles(segments[1..], name);
    }
  }

  lemma InTurnAppend(s: string, subs: seq<Substitution>, sub: Substitution)
    ensures ReplaceInTurn(s, subs + [sub]) == ReplaceAll(ReplaceInTurn(s, subs), Placeholder(sub.name), sub.value)
    decreases |subs|
  {
    if subs == [] {
      assert subs + [sub] == [sub] && [sub][1..] == [];
    } else {
      assert subs + [sub] == [subs[0]] + (subs[1..] + [sub]);
      assert (subs + [sub])[1..] == subs[1..] + [sub];
      InTurnAppend(ReplaceAll(s, Placeholder(subs[0].name), subs[0].value), subs[1..], sub);
    }
  }

  function ScriptSubstitutions(rs: SetUuid, newMaster: InstanceUuid): seq<Substitution> {
    [Substitution("set_uuid", rs), Substitution("new_master_uuid", newMaster)]
  }

  /** The recovery script for a set and its new master. */
  method GenerateRecoveryScript(template: string, rs: SetUuid, newMaster: InstanceUuid) returns (lua: string)
    ensures lua == ReplaceAll(ReplaceAll(template, "{set_uuid}", rs), "{new_master_uuid}", newMaster)
    ensures lua == ReplaceInTurn(template, ScriptSubstitutions(rs, newMaster))
  {
    hide ReplaceAll, ReplaceInTurn;
    assert Placeholder("set_uuid") == "{set_uuid}" && Placeholder("new_master_uuid") == "{new_master_uuid}";
    lua := ReplaceAll(template, Placeholder("set_uuid"), rs);
    lua := ReplaceAll(lua, Placeholder("new_master_uuid"), newMaster);
    NothingInTurn(template);
    InTurnAppend(template, [], Substitution("set_uuid", rs));
    InTurnAppend(template, [Substitution("set_uuid", rs)], Substitution("new_master_uuid", newMaster));
    assert [] + [Substitution("set_uuid", rs)] == [Substitution("set_uuid", rs)];
    assert [Substitution("set_uuid", rs)] + [Substitution("new_master_uuid", newMaster)]
        == ScriptSubstitutions(rs, newMaster);
  }

  lemma ScriptValueOf(rs: SetUuid, newMaster: InstanceUuid, name: string)
    ensures ValueOf(ScriptSubstitutions(rs, newMaster), name) ==
              if name == "set_uuid" then Some(rs) else if name == "new_master_uuid" then Some(newMaster) else None
  {
    var subs := ScriptSubstitutions(rs, newMaster);
    assert subs[1..] == [Substitution("new_master_uuid", newMaster)];
    ValueOfOne(subs[1], name);
  }

  /** The set's UUID goes where the template has `{set_uuid}`, the new master's where it has
      `{new_master_uuid}`. */
  lemma ScriptHoles(segments: seq<Segment>, rs: SetUuid, newMaster: InstanceUuid, k: nat)
    requires k < |segments|
    ensures Fill(segments, ScriptSubstitutions(rs, newMaster))[k] ==
              if segments[k] == Hole("set_uuid") then Literal(rs)
              else if segments[k] == Hole("new_master_uuid") then Literal(newMaster)
              else segments[k]
  {
    hide ScriptSubstitutions, ValueOf;
    if segments[k].Hole? {
      ScriptValueOf(rs, newMaster, segments[k].name);
    }
  }

  lemma NothingInTurn(s: string)
    ensures ReplaceInTurn(s, []) == s
  {
  }

  /** A recovery script whose template holds no stray placeholder is the template with both
      UUIDs put in at once. */
  lemma ScriptIsFilledAtOnce(segments: seq<Segment>, rs: SetUuid, newMaster: InstanceUuid)
    requires WellFormed(segments, {"set_uuid", "new_master_uuid"}) && '{' !in rs && '{' !in newMaster
    ensures ReplaceInTurn(Render(segments), ScriptSubstitutions(rs, newMaster))
         == Render(Fill(segments, ScriptSubstitutions(rs, newMaster)))
  {
    InTurnIsAtOnce(segments, ScriptSubstitutions(rs, newMaster), {"set_uuid", "new_master_uuid"});
  }
}
