/**
 * The parameter a user stages for an action before pressing Execute (render_actions in
 * gui/src/app.rs). An enumeration stages one option; flags are staged as one string whose
 * segments are joined by " | ", the form the device library parses.
 */
module Staging {

  const Separator: string := " | "

  /** Rust's `str::split(" | ")`: the segments between non-overlapping separators, found left to right. */
  function Split(s: string): (parts: seq<string>)
    ensures |parts| >= 1
    decreases |s|
  {
    if |s| < 3 then [s]
    else if s[..3] == Separator then [""] + Split(s[3..])
    else
      var rest := Split(s[1..]);
      [[s[0]] + rest[0]] + rest[1..]
  }

  /** `join(" | ")`. */
  function Join(parts: seq<string>): string {
    if parts == [] then ""
    else if |parts| == 1 then parts[0]
    else parts[0] + Separator + Join(parts[1..])
  }

  /** The segments equal to `flag` dropped, the others kept in order. */
  function Without(parts: seq<string>, flag: string): (r: seq<string>)
    ensures flag !in r
    ensures forall p :: p in r <==> p in parts && p != flag
  {
    if parts == [] then []
    else (if parts[0] == flag then [] else [parts[0]]) + Without(parts[1..], flag)
  }

  /** Checking a flag: appended, after a separator unless nothing is staged yet. */
  function CheckFlag(current: string, flag: string): string {
    if current == "" then flag else current + Separator + flag
  }

  /** Unchecking a flag: every segment equal to it is removed. */
  function UncheckFlag(current: string, flag: string): string {
    Join(Without(Split(current), flag))
  }

  /** The flags a staged string holds; nothing is staged in the empty string. */
  function Staged(current: string): seq<string> {
    if current == "" then [] else Split(current)
  }

  /** A flag name as the device reports it: not empty and free of the separator's bar. */
  predicate FlagName(f: string) {
    f != "" && '|' !in f
  }

  /** A staged string every segment of which is a flag name. */
  predicate WellFormed(current: string) {
    forall p :: p in Staged(current) ==> FlagName(p)
  }

  lemma JoinCons(x: string, rest: seq<string>)
    requires rest != []
    ensures Join([x] + rest) == x + Separator + Join(rest)
  {
    assert ([x] + rest)[1..] == rest;
  }

  lemma {:induction false} JoinAppend(parts: seq<string>, flag: string)
    requires parts != []
    ensures Join(parts + [flag]) == Join(parts) + Separator + flag
  {
    if |parts| > 1 {
      JoinAppend(parts[1..], flag);
      assert (parts + [flag])[1..] == parts[1..] + [flag];
    } else {
      assert parts + [flag] == [parts[0], flag];
    }
  }

  /** Joining the segments of a string gives the string back. */
  lemma {:induction false} SplitJoin(s: string)
    ensures Join(Split(s)) == s
    decreases |s|
  {
    if |s| >= 3 {
      if s[..3] == Separator {
        SplitJoin(s[3..]);
        JoinCons("", Split(s[3..]));
        assert s == Separator + s[3..];
      } else {
        var rest := Split(s[1..]);
        SplitJoin(s[1..]);
        if |rest| == 1 {
          assert Split(s) == [[s[0]] + rest[0]];
        } else {
          JoinCons([s[0]] + rest[0], rest[1..]);
          JoinCons(rest[0], rest[1..]);
          assert rest == [rest[0]] + rest[1..];
        }
        assert s == [s[0]] + s[1..];
      }
    }
  }

  /** A bar-free segment followed by a separator splits off as one segment. */
  lemma {:induction false} SplitSegment(x: string, t: string)
    requires '|' !in x
    ensures Split(x + Separator + t) == [x] + Split(t)
    decreases |x|
  {
    var s := x + Separator + t;
    if x == [] {
      assert s[..3] == Separator && s[3..] == t;
    } else {
      assert s[1] != '|' by {
        if |x| > 1 { assert s[1] == x[1]; } else { assert s[1] == ' '; }
      }
      assert s[..3] != Separator;
      SplitSegment(x[1..], t);
      assert s[1..] == x[1..] + Separator + t;
      assert [s[0]] + x[1..] == x;
    }
  }

  /** Splitting a join of bar-free segments gives the segments back. */
  lemma {:induction false} JoinSplit(parts: seq<string>)
    requires parts != []
    requires forall p :: p in parts ==> '|' !in p
    ensures Split(Join(parts)) == parts
  {
    if |parts| == 1 {
      var x := parts[0];
      if |x| >= 3 {
        assert x[1] in x;
        assert x[..3] != Separator;
        SplitSegmentFree(x);
      }
    } else {
      JoinSplit(parts[1..]);
      SplitSegment(parts[0], Join(parts[1..]));
      assert parts == [parts[0]] + parts[1..];
    }
  }

  /** A bar-free string is a single segment. */
  lemma {:induction false} SplitSegmentFree(x: string)
    requires '|' !in x
    ensures Split(x) == [x]
    decreases |x|
  {
    if |x| >= 3 {
      assert x[1] in x;
      assert x[..3] != Separator;
      SplitSegmentFree(x[1..]);
      assert [x[0]] + x[1..] == x;
    }
  }

  lemma StagedJoin(parts: seq<string>)
    requires forall p :: p in parts ==> FlagName(p)
    ensures Staged(Join(parts)) == parts
  {
    if parts != [] {
      assert parts[0] in parts;
      assert Join(parts) != "" by {
        if |parts| > 1 { assert Join(parts) == parts[0] + Separator + Join(parts[1..]); }
      }
      JoinSplit(parts);
    }
  }

  lemma JoinStaged(current: string)
    ensures Join(Staged(current)) == current
  {
    if current != "" { SplitJoin(current); }
  }

  /** Checking a flag adds it as the last staged segment and keeps the string well formed. */
  lemma CheckAppends(current: string, flag: string)
    requires WellFormed(current) && FlagName(flag)
    ensures Staged(CheckFlag(current, flag)) == Staged(current) + [flag]
    ensures WellFormed(CheckFlag(current, flag))
  {
    var parts := Staged(current);
    if current == "" {
      SplitSegmentFree(flag);
    } else {
      JoinStaged(current);
      JoinAppend(parts, flag);
      StagedJoin(parts + [flag]);
    }
  }

  /** Unchecking a flag removes exactly its segments, keeps the others in order and keeps the string well formed. */
  lemma UncheckRemoves(current: string, flag: string)
    requires WellFormed(current)
    ensures Staged(UncheckFlag(current, flag)) == Without(Staged(current), flag)
    ensures WellFormed(UncheckFlag(current, flag))
  {
    if current == "" {
      assert Split("") == [""];
      if flag == "" {
        assert Without([""], flag) == [];
      } else {
        assert Without([""], flag) == [""];
      }
    } else {
      StagedJoin(Without(Split(current), flag));
    }
  }

  lemma WithoutAbsent(parts: seq<string>, flag: string)
    requires flag !in parts
    ensures Without(parts, flag) == parts
  {
  }

  lemma {:induction false} WithoutAppend(parts: seq<string>, flag: string)
    ensures Without(parts + [flag], flag) == Without(parts, flag)
  {
    if parts != [] {
      WithoutAppend(parts[1..], flag);
      assert (parts + [flag])[1..] == parts[1..] + [flag];
    } else {
      assert Without([flag], flag) == [] + Without([], flag);
    }
  }

  /** A single segment survives the filter exactly when it differs from the flag. */
  lemma WithoutSingle(part: string, flag: string)
    ensures Without([part], flag) == if part == flag then [] else [part]
  {
    assert [part][1..] == [];
  }

  /**
   * The filter works segment by segment: filtering a concatenation is concatenating the filtered
   * pieces. With WithoutSingle this fixes the result completely: the kept segments keep their
   * order and their repetitions.
   */
  lemma {:induction false} WithoutConcat(a: seq<string>, b: seq<string>, flag: string)
    ensures Without(a + b, flag) == Without(a, flag) + Without(b, flag)
  {
    if a == [] {
      assert a + b == b;
    } else {
      WithoutConcat(a[1..], b, flag);
      assert (a + b)[0] == a[0] && (a + b)[1..] == a[1..] + b;
    }
  }

  /** Unchecking a flag just checked restores the staged string. */
  lemma UncheckUndoesCheck(current: string, flag: string)
    requires WellFormed(current) && FlagName(flag) && flag !in Staged(current)
    ensures UncheckFlag(CheckFlag(current, flag), flag) == current
  {
    var c := CheckFlag(current, flag);
    CheckAppends(current, flag);
    assert Split(c) == Staged(current) + [flag];
    WithoutAppend(Staged(current), flag);
    WithoutAbsent(Staged(current), flag);
    JoinStaged(current);
  }

  /** `t` occurs in `s` starting at position i. */
  predicate OccursAt(s: string, t: string, i: int) {
    0 <= i <= |s| - |t| && s[i..i + |t|] == t
  }

  /** Rust's `str::contains`: `t` occurs somewhere in `s`. */
  predicate Contains(s: string, t: string) {
    exists i :: 0 <= i <= |s| && OccursAt(s, t, i)
  }

  /** Whether a flag's checkbox shows as ticked, as written: the flag occurs anywhere in the staged string. */
  predicate IsFlagSetAsWritten(current: string, flag: string) {
    Contains(current, flag)
  }

  /** A click on a flag's checkbox, as written: uncheck when it shows as ticked, check otherwise. */
  function ClickFlagAsWritten(current: string, flag: string): string {
    if IsFlagSetAsWritten(current, flag) then UncheckFlag(current, flag) else CheckFlag(current, flag)
  }

  /**
   * With flags "AB" and "A", once "AB" is staged the box of "A" shows as ticked, and clicking it
   * leaves the staged string unchanged: "A" can never be staged beside "AB".
   */
  lemma ClickAsWrittenCannotStagePrefix()
    ensures FlagName("A") && FlagName("AB") && "A" !in Staged("AB")
    ensures IsFlagSetAsWritten("AB", "A")
    ensures ClickFlagAsWritten("AB", "A") == "AB"
    ensures ClickFlag("AB", "A") == "AB | A"
  {
    assert OccursAt("AB", "A", 0);
    SplitSegmentFree("AB");
    assert Without(["AB"], "A") == ["AB"];
  }

  /** Whether a flag's checkbox is ticked: the flag is one of the staged segments. */
  predicate IsFlagSet(current: string, flag: string) {
    flag in Staged(current)
  }

  /** A click on a flag's checkbox: uncheck when the flag is staged, check otherwise. */
  function ClickFlag(current: string, flag: string): string {
    if IsFlagSet(current, flag) then UncheckFlag(current, flag) else CheckFlag(current, flag)
  }

  /** Every click flips exactly the clicked flag and keeps the staged string well formed. */
  lemma ClickToggles(current: string, flag: string, other: string)
    requires WellFormed(current) && FlagName(flag) && other != flag
    ensures IsFlagSet(ClickFlag(current, flag), flag) == !IsFlagSet(current, flag)
    ensures IsFlagSet(ClickFlag(current, flag), other) == IsFlagSet(current, other)
    ensures WellFormed(ClickFlag(current, flag))
  {
    if IsFlagSet(current, flag) {
      UncheckRemoves(current, flag);
    } else {
      CheckAppends(current, flag);
    }
  }

  /** The value an enumeration starts with: its first option, or the empty string when it has none. */
  function EnumerationDefault(options: seq<string>): (v: string)
    ensures options != [] ==> v in options
  {
    if options == [] then "" else options[0]
  }

  /** `entry(id).or_insert(value)`: an entry is created only if none exists yet. */
  function WithDefault(inputs: map<string, string>, id: string, value: string): (r: map<string, string>)
    ensures id in r && r[id] == (if id in inputs then inputs[id] else value)
    ensures r.Keys == inputs.Keys + {id}
    ensures forall k :: k in inputs && k != id ==> r[k] == inputs[k]
  {
    if id in inputs then inputs else inputs[id := value]
  }
}
