/** Snapshot file names.  Both backup scripts name a snapshot
    `<prefix><YYYYMMDD_HHMMSS>.db` from `datetime.now().strftime('%Y%m%d_%H%M%S')`,
    and auto_backup.py reports `max(names)` as the latest snapshot.  Python
    compares strings lexicographically by code point (`LexLess`); the lemmas
    here show that for these fixed-width, zero-padded names that order is the
    chronological order of the instants they were made at. */
module Naming {
  import opened Common

  // ---- Python's string order ----

  predicate LexLess(s: string, t: string) {
    if s == [] then t != []
    else if t == [] then false
    else s[0] < t[0] || (s[0] == t[0] && LexLess(s[1..], t[1..]))
  }

  lemma {:induction false} LexIrreflexive(s: string)
    ensures !LexLess(s, s)
  {
    if s != [] {
      LexIrreflexive(s[1..]);
    }
  }

  lemma {:induction false} LexTotal(s: string, t: string)
    ensures s == t || LexLess(s, t) || LexLess(t, s)
  {
    if s != [] && t != [] && s[0] == t[0] {
      LexTotal(s[1..], t[1..]);
      if s[1..] == t[1..] {
        assert s == [s[0]] + s[1..] && t == [t[0]] + t[1..];
      }
    }
  }

  lemma {:induction false} LexAsymmetric(s: string, t: string)
    requires LexLess(s, t)
    ensures !LexLess(t, s)
  {
    if s != [] && t != [] && s[0] == t[0] {
      LexAsymmetric(s[1..], t[1..]);
    }
  }

  lemma {:induction false} LexTransitive(a: string, b: string, c: string)
    requires LexLess(a, b) && LexLess(b, c)
    ensures LexLess(a, c)
  {
    if a != [] && a[0] == b[0] && b[0] == c[0] {
      LexTransitive(a[1..], b[1..], c[1..]);
    }
  }

  /** Comparing two concatenations whose first blocks have the same length
      compares the first blocks, then the rest. */
  lemma {:induction false} LexBlocks(a: string, b: string, c: string, d: string)
    requires |a| == |b|
    ensures LexLess(a + c, b + d) <==> LexLess(a, b) || (a == b && LexLess(c, d))
    ensures a + c == b + d <==> a == b && c == d
  {
    if a == [] {
      assert a + c == c && b + d == d;
    } else {
      assert (a + c)[0] == a[0] && (a + c)[1..] == a[1..] + c;
      assert (b + d)[0] == b[0] && (b + d)[1..] == b[1..] + d;
      LexBlocks(a[1..], b[1..], c, d);
      if a + c == b + d {
        assert a == (a + c)[..|a|] == (b + d)[..|b|] == b;
      }
      if a[1..] == b[1..] && a[0] == b[0] {
        assert a == [a[0]] + a[1..] && b == [b[0]] + b[1..];
      }
    }
  }

  /** `max(names)` */
  function LexMax(names: seq<string>): (m: string)
    requires |names| > 0
    ensures m in names
    ensures forall n :: n in names ==> !LexLess(m, n)
  {
    if |names| == 1 then
      LexIrreflexive(names[0]);
      names[0]
    else
      var r := LexMax(names[1..]);
      if LexLess(names[0], r) then
        LexAsymmetric(names[0], r);
        r
      else
        forall n | n in names[1..] ensures !LexLess(names[0], n) {
          LexTotal(names[0], r);
          if LexLess(names[0], n) {
            LexTotal(r, n);
            if r != n {
              LexTransitive(r, names[0], n);
            }
          }
        }
        LexIrreflexive(names[0]);
        names[0]
  }

  /** `sorted(names, reverse=True)`: insertion into a descending sequence. */
  function InsertDescending(x: string, s: seq<string>): (r: seq<string>)
    requires forall i, j :: 0 <= i < j < |s| ==> !LexLess(s[i], s[j])
    ensures multiset(r) == multiset(s) + multiset{x}
    ensures forall i, j :: 0 <= i < j < |r| ==> !LexLess(r[i], r[j])
  {
    if s == [] then [x]
    else if !LexLess(x, s[0]) then
      forall j | 0 <= j < |s| ensures !LexLess(x, s[j]) {
        if LexLess(x, s[j]) {
          LexTotal(x, s[0]);
          if x != s[0] { LexTransitive(s[0], x, s[j]); }
        }
      }
      [x] + s
    else
      var t := InsertDescending(x, s[1..]);
      LexAsymmetric(x, s[0]);
      assert multiset(s) == multiset{s[0]} + multiset(s[1..]) by { assert s == [s[0]] + s[1..]; }
      forall j | 0 <= j < |t| ensures !LexLess(s[0], t[j]) {
        assert t[j] in multiset(t);
      }
      [s[0]] + t
  }

  function SortDescending(names: seq<string>): (r: seq<string>)
    ensures multiset(r) == multiset(names)
    ensures forall i, j :: 0 <= i < j < |r| ==> !LexLess(r[i], r[j])
  {
    if names == [] then []
    else
      assert names == [names[0]] + names[1..];
      InsertDescending(names[0], SortDescending(names[1..]))
  }

  // ---- strftime('%Y%m%d_%H%M%S') ----

  /** A clock reading; the year has four digits, as `%Y` prints it
      without padding. */
  datatype DateTime = DateTime(year: int, month: int, day: int, hour: int, minute: int, second: int) {
    predicate Valid() {
      && 1000 <= year <= 9999 && 1 <= month <= 12 && 1 <= day <= 31
      && 0 <= hour <= 23 && 0 <= minute <= 59 && 0 <= second <= 59
    }
  }

  /** Chronological order of two readings. */
  predicate Before(a: DateTime, b: DateTime) {
    || a.year < b.year
    || (a.year == b.year && a.month < b.month)
    || (a.year == b.year && a.month == b.month && a.day < b.day)
    || (a.year == b.year && a.month == b.month && a.day == b.day && a.hour < b.hour)
    || (a.year == b.year && a.month == b.month && a.day == b.day && a.hour == b.hour && a.minute < b.minute)
    || (a.year == b.year && a.month == b.month && a.day == b.day && a.hour == b.hour && a.minute == b.minute
        && a.second < b.second)
  }

  function Pow10(w: nat): nat {
    if w == 0 then 1 else 10 * Pow10(w - 1)
  }

  /** `n` in decimal, zero-padded to `w` digits. */
  function Digits(n: nat, w: nat): (s: string)
    requires n < Pow10(w)
    ensures |s| == w
    ensures forall i :: 0 <= i < w ==> '0' <= s[i] <= '9'
  {
    if w == 0 then ""
    else Digits(n / 10, w - 1) + [('0' as int + n % 10) as char]
  }

  /** Fixed-width digit strings compare as the numbers they spell. */
  lemma {:induction false} DigitsOrder(m: nat, n: nat, w: nat)
    requires m < Pow10(w) && n < Pow10(w)
    ensures LexLess(Digits(m, w), Digits(n, w)) <==> m < n
    ensures Digits(m, w) == Digits(n, w) <==> m == n
  {
    if w == 0 {
      LexIrreflexive("");
    } else {
      DigitsOrder(m / 10, n / 10, w - 1);
      var x: string := [('0' as int + m % 10) as char];
      var y: string := [('0' as int + n % 10) as char];
      LexBlocks(Digits(m / 10, w - 1), Digits(n / 10, w - 1), x, y);
      assert LexLess(x, y) <==> m % 10 < n % 10;
      assert x == y <==> m % 10 == n % 10;
    }
  }

  function Timestamp(t: DateTime): (s: string)
    requires t.Valid()
    ensures |s| == 15 && s[8] == '_'
    ensures forall i :: 0 <= i < 15 && i != 8 ==> '0' <= s[i] <= '9'
  {
    Digits(t.year, 4) + (Digits(t.month, 2) + (Digits(t.day, 2) + ("_" + (Digits(t.hour, 2) + (Digits(t.minute, 2) + Digits(t.second, 2))))))
  }

  /** Two fields of the same width compared in front of the rest. */
  lemma FieldThenRest(m: nat, n: nat, w: nat, c: string, d: string)
    requires m < Pow10(w) && n < Pow10(w)
    ensures LexLess(Digits(m, w) + c, Digits(n, w) + d) <==> m < n || (m == n && LexLess(c, d))
    ensures Digits(m, w) + c == Digits(n, w) + d <==> m == n && c == d
  {
    DigitsOrder(m, n, w);
    LexBlocks(Digits(m, w), Digits(n, w), c, d);
  }

  /** Timestamps sort as the instants they print, and distinct instants
      print differently. */
  lemma TimestampOrder(a: DateTime, b: DateTime)
    requires a.Valid() && b.Valid()
    ensures LexLess(Timestamp(a), Timestamp(b)) <==> Before(a, b)
    ensures Timestamp(a) == Timestamp(b) <==> a == b
  {
    assert Pow10(2) == 100 && Pow10(4) == 10000;
    var sa := Digits(a.minute, 2) + Digits(a.second, 2);
    var sb := Digits(b.minute, 2) + Digits(b.second, 2);
    FieldThenRest(a.minute, b.minute, 2, Digits(a.second, 2), Digits(b.second, 2));
    DigitsOrder(a.second, b.second, 2);
    var ha := Digits(a.hour, 2) + sa;
    var hb := Digits(b.hour, 2) + sb;
    FieldThenRest(a.hour, b.hour, 2, sa, sb);
    var ua: string := "_" + ha;
    var ub: string := "_" + hb;
    LexBlocks("_", "_", ha, hb);
    LexIrreflexive("_");
    var da := Digits(a.day, 2) + ua;
    var db := Digits(b.day, 2) + ub;
    FieldThenRest(a.day, b.day, 2, ua, ub);
    var ma := Digits(a.month, 2) + da;
    var mb := Digits(b.month, 2) + db;
    FieldThenRest(a.month, b.month, 2, da, db);
    FieldThenRest(a.year, b.year, 4, ma, mb);
  }

  const DB_SUFFIX: string := ".db"

  /** `f'{prefix}{timestamp}.db'` */
  function BackupName(prefix: string, t: DateTime): (name: string)
    requires t.Valid()
    ensures StartsWith(name, prefix) && EndsWith(name, DB_SUFFIX)
    ensures |name| == |prefix| + 18
  {
    var name := prefix + (Timestamp(t) + DB_SUFFIX);
    assert name[..|prefix|] == prefix;
    assert name[|name| - 3..] == DB_SUFFIX;
    name
  }

  /** With a common prefix, name order is chronological order. */
  lemma BackupNameOrder(prefix: string, a: DateTime, b: DateTime)
    requires a.Valid() && b.Valid()
    ensures LexLess(BackupName(prefix, a), BackupName(prefix, b)) <==> Before(a, b)
    ensures BackupName(prefix, a) == BackupName(prefix, b) <==> a == b
  {
    var ta, tb := Timestamp(a), Timestamp(b);
    TimestampOrder(a, b);
    SameSuffix(ta, tb, DB_SUFFIX);
    SamePrefix(prefix, ta + DB_SUFFIX, tb + DB_SUFFIX);
  }

  lemma SameSuffix(s: string, t: string, suffix: string)
    requires |s| == |t|
    ensures LexLess(s + suffix, t + suffix) <==> LexLess(s, t)
    ensures s + suffix == t + suffix <==> s == t
  {
    LexBlocks(s, t, suffix, suffix);
    LexIrreflexive(suffix);
  }

  lemma SamePrefix(prefix: string, s: string, t: string)
    ensures LexLess(prefix + s, prefix + t) <==> LexLess(s, t)
    ensures prefix + s == prefix + t <==> s == t
  {
    LexBlocks(prefix, prefix, s, t);
    LexIrreflexive(prefix);
  }

  /** Among names made by `BackupName` with one prefix, `max(names)` is the
      name of the latest instant. */
  lemma MaxNameIsLatest(prefix: string, times: seq<DateTime>)
    requires |times| > 0 && forall i :: 0 <= i < |times| ==> times[i].Valid()
    ensures var names := seq(|times|, i requires 0 <= i < |times| => BackupName(prefix, times[i]));
            exists k :: 0 <= k < |times| && LexMax(names) == names[k]
                        && forall j :: 0 <= j < |times| ==> !Before(times[k], times[j])
  {
    var names := seq(|times|, i requires 0 <= i < |times| => BackupName(prefix, times[i]));
    var m := LexMax(names);
    var k :| 0 <= k < |names| && names[k] == m;
    forall j | 0 <= j < |times| ensures !Before(times[k], times[j]) {
      assert names[j] in names;
      BackupNameOrder(prefix, times[k], times[j]);
    }
  }
}
