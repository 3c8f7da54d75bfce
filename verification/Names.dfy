/** DNS names as the program compares them (strings) and as DNS means them (label sequences).

    A Rust string is modelled as the sequence of its bytes, one `char` a byte: ASCII
    lower-casing, trimming dots, suffix tests and `len()` all work on bytes. */
module Names {
  import opened Prelude

  /** `to_ascii_lowercase` on one byte. */
  function LowerChar(c: char): char {
    if 'A' <= c <= 'Z' then (c as int + 32) as char else c
  }

  function Lower(s: string): (r: string)
    ensures |r| == |s|
  {
    seq(|s|, i requires 0 <= i < |s| => LowerChar(s[i]))
  }

  /** `trim_end_matches('.')`: every trailing dot goes, not just one. */
  function TrimDots(s: string): (r: string)
    ensures |r| <= |s| && r == s[..|r|]
    ensures r != "" ==> r[|r| - 1] != '.'
    ensures forall i :: |r| <= i < |s| ==> s[i] == '.'
  {
    if s != "" && s[|s| - 1] == '.' then TrimDots(s[..|s| - 1]) else s
  }

  /** What the server compares: names are case-insensitive and the final dot is optional. */
  function Canonical(name: string): string {
    TrimDots(Lower(name))
  }

  /** One letter in either case, or one and the same byte. */
  predicate SameLetter(a: char, b: char) {
    || a == b
    || ('A' <= a <= 'Z' && 'a' <= b <= 'z' && b as int - 'a' as int == a as int - 'A' as int)
    || ('A' <= b <= 'Z' && 'a' <= a <= 'z' && a as int - 'a' as int == b as int - 'A' as int)
  }

  /** The first `k` bytes of a name are what is left without its final dots. */
  predicate DotsFrom(s: string, k: nat) {
    k <= |s| && (k > 0 ==> s[k - 1] != '.') && forall i :: k <= i < |s| ==> s[i] == '.'
  }

  lemma LowerLetter(a: char, b: char)
    ensures LowerChar(a) == LowerChar(b) <==> SameLetter(a, b)
  {
  }

  lemma CanonicalLength(s: string, k: nat)
    requires DotsFrom(s, k)
    ensures |Canonical(s)| == k && forall i :: 0 <= i < k ==> Canonical(s)[i] == LowerChar(s[i])
  {
    var lower := Lower(s);
    forall i | 0 <= i < |s| ensures lower[i] == '.' <==> s[i] == '.' {
    }
    var l := |TrimDots(lower)|;
    hide LowerChar;
    if l < k {
      assert false;
    } else if l > k {
      assert false;
    }
  }

  lemma {:induction false} SomeDots(s: string) returns (k: nat)
    ensures DotsFrom(s, k)
  {
    k := |s|;
    while k > 0 && s[k - 1] == '.'
      invariant k <= |s| && forall i :: k <= i < |s| ==> s[i] == '.'
    {
      k := k - 1;
    }
  }

  /** Two texts are one name exactly when, without their final dots, they are equally long and
      differ only in the case of ASCII letters. */
  lemma CanonicalExactly(m: string, n: string)
    ensures Canonical(m) == Canonical(n)
            <==> exists k: nat :: DotsFrom(m, k) && DotsFrom(n, k) && forall i :: 0 <= i < k ==> SameLetter(m[i], n[i])
  {
    forall a, b ensures LowerChar(a) == LowerChar(b) <==> SameLetter(a, b) {
      LowerLetter(a, b);
    }
    var k := SomeDots(m);
    var l := SomeDots(n);
    CanonicalLength(m, k);
    CanonicalLength(n, l);
    hide LowerChar, SameLetter, Canonical;
    if Canonical(m) == Canonical(n) {
      forall i | 0 <= i < k ensures SameLetter(m[i], n[i]) {
        assert LowerChar(m[i]) == LowerChar(n[i]);
      }
      assert DotsFrom(m, k) && DotsFrom(n, k);
    }
    if exists j: nat :: DotsFrom(m, j) && DotsFrom(n, j) && forall i :: 0 <= i < j ==> SameLetter(m[i], n[i]) {
      var j: nat :| DotsFrom(m, j) && DotsFrom(n, j) && forall i :: 0 <= i < j ==> SameLetter(m[i], n[i]);
      CanonicalLength(m, j);
      CanonicalLength(n, j);
    }
  }

  /** Some entry of a list is a spelling of the DNS name `m`. */
  predicate Denotes(names: seq<string>, m: string) {
    exists k :: 0 <= k < |names| && Canonical(names[k]) == Canonical(m)
  }

  predicate EndsWith(s: string, suffix: string) {
    |suffix| <= |s| && s[|s| - |suffix|..] == suffix
  }

  /** `strip_prefix`, where the program falls back on the whole string. */
  function StripPrefix(s: string, prefix: string): string {
    if prefix <= s then s[|prefix|..] else s
  }

  /** The string test of `find_zone`. */
  predicate ZoneMatches(name: string, zone: string) {
    var n, z := Canonical(name), Canonical(zone);
    n == z || EndsWith(n, "." + z)
  }

  /** `max_by_key(|zone| zone.len())`, which keeps the last of equally long elements. */
  function Longest(zones: seq<string>): Option<string> {
    if zones == [] then None
    else
      var last := zones[|zones| - 1];
      match Longest(zones[..|zones| - 1])
      case None => Some(last)
      case Some(best) => if |last| >= |best| then Some(last) else Some(best)
  }

  function Matching(name: string, zones: seq<string>): seq<string> {
    if zones == [] then []
    else (if ZoneMatches(name, zones[0]) then [zones[0]] else []) + Matching(name, zones[1..])
  }

  /** `DnsClientConfig::find_zone` over the configured zones. */
  function FindZone(name: string, zones: seq<string>): Option<string> {
    Longest(Matching(name, zones))
  }

  /** The labels of a string: the pieces between its dots. */
  function Split(s: string): (labels: seq<string>)
    ensures |labels| > 0
  {
    if s == "" then [""]
    else
      var rest := Split(s[1..]);
      if s[0] == '.' then [""] + rest else [[s[0]] + rest[0]] + rest[1..]
  }

  function Join(labels: seq<string>): string
    requires labels != []
  {
    if |labels| == 1 then labels[0] else labels[0] + "." + Join(labels[1..])
  }

  /** The lower-cased label sequence of a name; the root has none. */
  function Labels(name: string): seq<string> {
    var n := Canonical(name);
    if n == "" then [] else Split(n)
  }

  predicate IsSuffix<T(==)>(short: seq<T>, long: seq<T>) {
    |short| <= |long| && long[|long| - |short|..] == short
  }

  lemma HeadOfConcat<T>(x: T, a: seq<T>, b: seq<T>)
    ensures [x] + (a + b) == ([x] + a) + b
    ensures a != [] ==> (a + b)[0] == a[0] && (a + b)[1..] == a[1..] + b
  {
  }

  lemma {:induction false} SplitConcat(p: string, z: string)
    ensures Split(p + "." + z) == Split(p) + Split(z)
  {
    if p == "" {
      assert "" + "." + z == "." + z;
      assert ("." + z)[1..] == z;
    } else {
      SplitConcat(p[1..], z);
      assert (p + "." + z)[1..] == p[1..] + "." + z;
      var first, last := Split(p[1..]), Split(z);
      HeadOfConcat("", first, last);
      HeadOfConcat([p[0]] + first[0], first[1..], last);
    }
  }

  lemma {:induction false} JoinConcat(left: seq<string>, right: seq<string>)
    requires left != [] && right != []
    ensures Join(left + right) == Join(left) + "." + Join(right)
  {
    if |left| == 1 {
      assert (left + right)[1..] == right;
    } else {
      JoinConcat(left[1..], right);
      assert (left + right)[1..] == left[1..] + right;
    }
  }

  lemma {:induction false} JoinSplit(s: string)
    ensures Join(Split(s)) == s
  {
    if s != "" {
      var rest := Split(s[1..]);
      JoinSplit(s[1..]);
      if s[0] == '.' {
        assert ([""] + rest)[1..] == rest;
      } else {
        assert ([[s[0]] + rest[0]] + rest[1..])[1..] == rest[1..];
        if |rest| > 1 {
          assert Join(Split(s)) == [s[0]] + rest[0] + "." + Join(rest[1..]);
          assert Join(rest) == rest[0] + "." + Join(rest[1..]);
        }
      }
    }
  }

  lemma SuffixSplits<T>(short: seq<T>, long: seq<T>)
    requires IsSuffix(short, long)
    ensures |short| <= |long| && long == long[..|long| - |short|] + short
    ensures |short| == |long| ==> short == long
  {
  }

  lemma AppendedIsSuffix<T>(front: seq<T>, back: seq<T>)
    ensures IsSuffix(back, front + back)
  {
  }

  lemma EndsWithDotted(front: string, z: string)
    ensures EndsWith(front + "." + z, "." + z)
  {
  }

  lemma DottedSplits(n: string, z: string) returns (front: string)
    requires EndsWith(n, "." + z)
    ensures n == front + "." + z
  {
    front := n[..|n| - |"." + z|];
    assert n == front + n[|n| - |"." + z|..];
    assert front + "." + z == front + ("." + z);
  }

  lemma LabelsAreDottedPrefix(n: string, z: string)
    requires IsSuffix(Split(z), Split(n)) && |Split(z)| < |Split(n)|
    ensures EndsWith(n, "." + z)
  {
    hide *;
    var all, right := Split(n), Split(z);
    SuffixSplits(right, all);
    var left := all[..|all| - |right|];
    JoinConcat(left, right);
    JoinSplit(n);
    JoinSplit(z);
    EndsWithDotted(Join(left), z);
  }

  lemma DottedPrefixIsLabels(n: string, z: string)
    requires EndsWith(n, "." + z)
    ensures IsSuffix(Split(z), Split(n))
  {
    hide *;
    var front := DottedSplits(n, z);
    SplitConcat(front, z);
    AppendedIsSuffix(Split(front), Split(z));
  }

  lemma SplitIsInjective(n: string, z: string)
    requires Split(n) == Split(z)
    ensures n == z
  {
    hide *;
    JoinSplit(n);
    JoinSplit(z);
  }

  /** Splitting off a dotted prefix is dropping labels: the fact behind the string test. */
  lemma SuffixTestOnLabels(n: string, z: string)
    ensures n == z || EndsWith(n, "." + z) <==> IsSuffix(Split(z), Split(n))
  {
    hide *;
    AppendedIsSuffix([], Split(n));
    assert [] + Split(n) == Split(n);
    if EndsWith(n, "." + z) {
      DottedPrefixIsLabels(n, z);
    }
    if IsSuffix(Split(z), Split(n)) {
      SuffixSplits(Split(z), Split(n));
      if |Split(z)| < |Split(n)| {
        LabelsAreDottedPrefix(n, z);
      } else {
        SplitIsInjective(n, z);
      }
    }
  }

  /** The string test means "the zone's labels are a suffix of the name's labels" for every
      zone but the root. The root zone, which holds every name, is matched by the root only. */
  lemma ZoneMatchesExactly(name: string, zone: string)
    ensures Labels(zone) != [] ==> (ZoneMatches(name, zone) <==> IsSuffix(Labels(zone), Labels(name)))
    ensures Labels(zone) == [] ==> (ZoneMatches(name, zone) <==> Labels(name) == [])
  {
    var n, z := Canonical(name), Canonical(zone);
    if z != "" {
      SuffixTestOnLabels(n, z);
      if n == "" {
        assert !EndsWith(n, "." + z);
      }
    } else {
      assert "." + z == ".";
      if n != "" {
        assert n[|n| - 1..] == [n[|n| - 1]];
      }
    }
  }

  /** A zone as DNS allows it to be written: no empty label, and at most one final dot. */
  predicate WellFormed(zone: string) {
    && |zone| <= |Canonical(zone)| + 1
    && (forall i :: 0 <= i < |Labels(zone)| ==> Labels(zone)[i] != "")
    && Labels(zone) != []
  }

  lemma {:induction false} JoinLength(labels: seq<string>)
    requires labels != [] && labels[0] != ""
    ensures |Join(labels)| >= 1
  {
  }

  /** Of two zones on the same branch of the tree, the deeper one is longer by at least two
      bytes once trimmed, so comparing untrimmed lengths cannot prefer the shallower one. */
  lemma DeeperIsLonger(shallow: string, deep: string, name: string)
    requires WellFormed(shallow) && WellFormed(deep)
    requires IsSuffix(Labels(shallow), Labels(name)) && IsSuffix(Labels(deep), Labels(name))
    requires |Labels(shallow)| < |Labels(deep)|
    ensures |shallow| < |deep|
  {
    var s, d := Labels(shallow), Labels(deep);
    var left := d[..|d| - |s|];
    assert d == left + s by {
      assert d[|d| - |s|..] == Labels(name)[|Labels(name)| - |s|..];
    }
    JoinConcat(left, s);
    JoinSplit(Canonical(shallow));
    JoinSplit(Canonical(deep));
    assert left[0] == d[0];
    JoinLength(left);
  }

  lemma {:induction false} LongestIsMax(zones: seq<string>)
    ensures Longest(zones).None? <==> zones == []
    ensures Longest(zones).Some? ==>
              Longest(zones).value in zones && forall z :: z in zones ==> |z| <= |Longest(zones).value|
  {
    if zones != [] {
      var init := zones[..|zones| - 1];
      LongestIsMax(init);
      assert zones == init + [zones[|zones| - 1]];
    }
  }

  lemma {:induction false} MatchingMembers(name: string, zones: seq<string>)
    ensures forall z :: z in Matching(name, zones) <==> z in zones && ZoneMatches(name, z)
  {
    if zones != [] {
      MatchingMembers(name, zones[1..]);
      assert zones == [zones[0]] + zones[1..];
    }
  }

  /** `find_zone` answers with a configured zone that holds the name and has the most labels
      of those that do, and answers nothing exactly when none does. */
  lemma FindZoneMostSpecific(name: string, zones: seq<string>)
    requires forall z :: z in zones ==> WellFormed(z)
    ensures FindZone(name, zones).None? <==> forall z :: z in zones ==> !IsSuffix(Labels(z), Labels(name))
    ensures FindZone(name, zones).Some? ==>
              var best := FindZone(name, zones).value;
              && best in zones && IsSuffix(Labels(best), Labels(name))
              && forall z :: z in zones && IsSuffix(Labels(z), Labels(name)) ==> |Labels(z)| <= |Labels(best)|
  {
    var matching := Matching(name, zones);
    MatchingMembers(name, zones);
    LongestIsMax(matching);
    forall z | z in zones ensures ZoneMatches(name, z) <==> IsSuffix(Labels(z), Labels(name)) {
      ZoneMatchesExactly(name, z);
    }
    if matching == [] {
      forall z | z in zones ensures !IsSuffix(Labels(z), Labels(name)) {
        assert z !in matching;
      }
    } else {
      var best := Longest(matching).value;
      forall z | z in zones && IsSuffix(Labels(z), Labels(name)) ensures |Labels(z)| <= |Labels(best)| {
        assert z in matching;
        if |Labels(z)| > |Labels(best)| {
          DeeperIsLonger(best, z, name);
        }
      }
    }
  }

  // ----- Exactly when the answer is the most specific zone -----

  lemma {:induction false} MatchingAppend(name: string, zones: seq<string>, z: string)
    ensures Matching(name, zones + [z]) == Matching(name, zones) + if ZoneMatches(name, z) then [z] else []
  {
    hide ZoneMatches;
    if zones == [] {
      assert ([] + [z])[1..] == [];
    } else {
      MatchingAppend(name, zones[1..], z);
      assert (zones + [z])[1..] == zones[1..] + [z];
    }
  }

  lemma LongestAppend(zones: seq<string>, z: string)
    ensures Longest(zones + [z]) == match Longest(zones)
                                    case None => Some(z)
                                    case Some(best) => if |z| >= |best| then Some(z) else Some(best)
  {
    assert (zones + [z])[..|zones|] == zones;
  }

  lemma OneMoreZone(name: string, zones: seq<string>, z: string)
    ensures FindZone(name, zones + [z]) ==
              if !ZoneMatches(name, z) then FindZone(name, zones)
              else match FindZone(name, zones)
                   case None => Some(z)
                   case Some(best) => if |z| >= |best| then Some(z) else Some(best)
  {
    hide ZoneMatches, Longest, Matching;
    MatchingAppend(name, zones, z);
    LongestAppend(Matching(name, zones), z);
    assert Matching(name, zones) + [] == Matching(name, zones);
  }

  /** Zone `k` is the last of the longest, as written, of the zones that match. */
  predicate LastLongest(name: string, zones: seq<string>, k: int) {
    && 0 <= k < |zones| && ZoneMatches(name, zones[k])
    && forall l :: 0 <= l < |zones| && ZoneMatches(name, zones[l]) ==>
         |zones[l]| <= |zones[k]| && (l > k ==> |zones[l]| < |zones[k]|)
  }

  lemma LastLongestOneMore(name: string, zones: seq<string>, z: string, k: int)
    requires k == -1 ==> forall l :: 0 <= l < |zones| ==> !ZoneMatches(name, zones[l])
    requires k != -1 ==> LastLongest(name, zones, k)
    ensures if ZoneMatches(name, z) && (k == -1 || |z| >= |zones[k]|) then LastLongest(name, zones + [z], |zones|)
            else if k == -1 then forall l :: 0 <= l < |zones + [z]| ==> !ZoneMatches(name, (zones + [z])[l])
            else LastLongest(name, zones + [z], k)
  {
    hide ZoneMatches;
    var all := zones + [z];
    assert all[|zones|] == z && forall l :: 0 <= l < |zones| ==> all[l] == zones[l];
  }

  /** The position of the answer, or -1 if there is none because nothing matches. */
  lemma {:induction false} FindZoneIndex(name: string, zones: seq<string>) returns (k: int)
    ensures if k == -1
            then FindZone(name, zones) == None && forall l :: 0 <= l < |zones| ==> !ZoneMatches(name, zones[l])
            else LastLongest(name, zones, k) && FindZone(name, zones) == Some(zones[k])
  {
    if zones == [] {
      k := -1;
    } else {
      var n := |zones| - 1;
      var init := zones[..n];
      k := FindZoneIndex(name, init);
      assert zones == init + [zones[n]];
      OneMoreZone(name, init, zones[n]);
      LastLongestOneMore(name, init, zones[n], k);
      if ZoneMatches(name, zones[n]) && (k == -1 || |zones[n]| >= |init[k]|) {
        k := n;
      }
      hide *;
    }
  }

  /** The answer for `name` has the most labels of the zones that match. */
  predicate MostSpecific(name: string, zones: seq<string>) {
    FindZone(name, zones).Some? ==>
      forall l :: 0 <= l < |zones| && ZoneMatches(name, zones[l]) ==>
        |Labels(zones[l])| <= |Labels(FindZone(name, zones).value)|
  }

  /** Each zone that holds another is shorter as written, or equally long and earlier in the list. */
  predicate OrderedByDepth(zones: seq<string>) {
    forall i, j :: 0 <= i < |zones| && 0 <= j < |zones|
                   && IsSuffix(Labels(zones[i]), Labels(zones[j])) && |Labels(zones[i])| < |Labels(zones[j])| ==>
      |zones[i]| < |zones[j]| || (|zones[i]| == |zones[j]| && i < j)
  }

  lemma NestedSuffixes<T>(a: seq<T>, b: seq<T>, long: seq<T>)
    requires IsSuffix(a, long) && IsSuffix(b, long) && |a| <= |b|
    ensures IsSuffix(a, b)
  {
  }

  lemma DepthSuffices(name: string, zones: seq<string>)
    requires OrderedByDepth(zones) && forall l :: 0 <= l < |zones| ==> Labels(zones[l]) != []
    ensures MostSpecific(name, zones)
  {
    var k := FindZoneIndex(name, zones);
    if k != -1 {
      forall l: nat | l < |zones| && ZoneMatches(name, zones[l]) ensures |Labels(zones[l])| <= |Labels(zones[k])| {
        hide *;
        ZoneMatchesExactly(name, zones[l]);
        LastLongestMatches(name, zones, k);
        ZoneMatchesExactly(name, zones[k]);
        if |Labels(zones[k])| < |Labels(zones[l])| {
          NestedSuffixes(Labels(zones[k]), Labels(zones[l]), Labels(name));
        }
        DepthOfPair(name, zones, k, l);
      }
      hide Labels, ZoneMatches, FindZone;
    }
  }

  lemma LastLongestMatches(name: string, zones: seq<string>, k: int)
    requires LastLongest(name, zones, k)
    ensures 0 <= k < |zones| && ZoneMatches(name, zones[k])
  {
  }

  lemma DepthOfPair(name: string, zones: seq<string>, k: int, l: nat)
    requires OrderedByDepth(zones) && LastLongest(name, zones, k) && l < |zones| && ZoneMatches(name, zones[l])
    requires |Labels(zones[k])| < |Labels(zones[l])| ==> IsSuffix(Labels(zones[k]), Labels(zones[l]))
    ensures |Labels(zones[l])| <= |Labels(zones[k])|
  {
    hide IsSuffix, Labels, ZoneMatches;
  }

  predicate DifferentLabels(zones: seq<string>) {
    forall k, l :: 0 <= k < l < |zones| ==> Labels(zones[k]) != Labels(zones[l])
  }

  lemma SameLabelsSameZone(zones: seq<string>, k: nat, l: nat)
    requires DifferentLabels(zones) && k < |zones| && l < |zones| && Labels(zones[k]) == Labels(zones[l])
    ensures k == l
  {
    hide Labels;
  }

  lemma SuffixOfItself<T>(a: seq<T>)
    ensures IsSuffix(a, a)
  {
  }

  lemma AnswerHasMostLabels(name: string, zones: seq<string>, k: int, l: nat)
    requires MostSpecific(name, zones) && LastLongest(name, zones, k) && FindZone(name, zones) == Some(zones[k])
    requires l < |zones| && ZoneMatches(name, zones[l])
    ensures |Labels(zones[l])| <= |Labels(zones[k])|
    ensures |zones[l]| < |zones[k]| || (|zones[l]| == |zones[k]| && l <= k)
  {
    hide Labels, ZoneMatches, FindZone;
  }

  lemma DepthNeeded(zones: seq<string>, i: nat, j: nat)
    requires DifferentLabels(zones) && i < |zones| && j < |zones| && MostSpecific(zones[j], zones)
    requires forall l :: 0 <= l < |zones| ==> Labels(zones[l]) != []
    requires IsSuffix(Labels(zones[i]), Labels(zones[j])) && |Labels(zones[i])| < |Labels(zones[j])|
    ensures |zones[i]| < |zones[j]| || (|zones[i]| == |zones[j]| && i < j)
  {
    hide *;
    var name := zones[j];
    ZoneMatchesExactly(name, zones[i]);
    SuffixOfItself(Labels(name));
    ZoneMatchesExactly(name, zones[j]);
    var k := FindZoneIndex(name, zones);
    LastLongestMatches(name, zones, k);
    ZoneMatchesExactly(name, zones[k]);
    AnswerHasMostLabels(name, zones, k, j);
    SuffixSplits(Labels(zones[k]), Labels(name));
    SameLabelsSameZone(zones, k, j);
    AnswerHasMostLabels(name, zones, k, i);
  }

  /** Over zones other than the root with pairwise different labels, the answer is the most
      specific zone for every name if and only if the list is ordered by depth: each zone that
      holds another is shorter as written, or equally long and earlier. */
  lemma FindZoneExactly(zones: seq<string>)
    requires DifferentLabels(zones) && forall l :: 0 <= l < |zones| ==> Labels(zones[l]) != []
    ensures (forall name :: MostSpecific(name, zones)) <==> OrderedByDepth(zones)
  {
    if OrderedByDepth(zones) {
      forall name ensures MostSpecific(name, zones) {
        DepthSuffices(name, zones);
      }
    }
    if forall name :: MostSpecific(name, zones) {
      hide MostSpecific, IsSuffix, Labels, DifferentLabels;
      forall i: nat, j: nat | i < |zones| && j < |zones|
          && IsSuffix(Labels(zones[i]), Labels(zones[j])) && |Labels(zones[i])| < |Labels(zones[j])|
        ensures |zones[i]| < |zones[j]| || (|zones[i]| == |zones[j]| && i < j)
      {
        assert MostSpecific(zones[j], zones);
        DepthNeeded(zones, i, j);
      }
    }
  }

  lemma SplitOneLabel(c: char)
    requires c != '.'
    ensures Split([c]) == [[c]]
  {
    assert [c][1..] == "";
    assert [c] + "" == [c];
  }

  lemma CanonicalUnchanged(s: string)
    requires forall c :: c in s ==> LowerChar(c) == c
    requires s != "" && s[|s| - 1] != '.'
    ensures Canonical(s) == s
  {
  }

  lemma CanonicalDropsDot(s: string)
    ensures Canonical(s + ".") == Canonical(s)
  {
    assert Lower(s + ".")[..|s|] == Lower(s);
  }

  lemma CanonicalOfDotted()
    ensures Canonical("a.c") == "a.c" && Canonical("c...") == "c"
  {
    CanonicalUnchanged("a.c");
    CanonicalUnchanged("c");
    assert "c" + "." == "c." && "c." + "." == "c.." && "c.." + "." == "c...";
    CanonicalDropsDot("c");
    CanonicalDropsDot("c.");
    CanonicalDropsDot("c..");
  }

  lemma LabelsOfDotted()
    ensures Split("a.c") == ["a", "c"] && Split("c") == ["c"]
  {
    SplitOneLabel('a');
    SplitOneLabel('c');
    assert "a" + "." + "c" == "a.c";
    SplitConcat("a", "c");
  }

  /** Without "at most one final dot" the answer can be the less specific zone, because the
      comparison is on the untrimmed text: of the zones "a.c" and "c..." for the name "a.c",
      the second wins. */
  lemma TrailingDotsDefeatFindZone()
    ensures FindZone("a.c", ["a.c", "c..."]) == Some("c...")
    ensures IsSuffix(Labels("a.c"), Labels("a.c")) && |Labels("c...")| < |Labels("a.c")|
  {
    CanonicalOfDotted();
    LabelsOfDotted();
    SuffixTestOnLabels("a.c", "c");
    hide Canonical, Split;
    MatchingTwo("a.c", "a.c", "c...");
  }

  lemma MatchingTwo(name: string, first: string, second: string)
    requires ZoneMatches(name, first) && ZoneMatches(name, second) && |first| <= |second|
    ensures FindZone(name, [first, second]) == Some(second)
  {
    assert [first, second][1..] == [second];
    assert Matching(name, [second]) == [second];
    assert Matching(name, [first, second]) == [first, second];
    assert [first, second][..1] == [first];
    assert [first][..0] == [] && Longest([first]) == Some(first);
  }
}
