/** The mechanism list of the configuration: "ALL", a comma-separated list of names, or such a list
    after a minus sign, naming what is to be left out. */
module Mechanisms {
  import opened Cryptoki

  /** The names the library knows; several may stand for the same mechanism. */
  type NameTable = t: map<string, nat> | "" !in t witness map[]

  // ----- what a list says, without scanning it -----------------------------------------------------

  /** `s[i..j]` is one of the comma-separated names of the list that begins at `start`. */
  predicate NameAt(s: string, start: nat, i: int, j: int) {
    && start <= i <= j <= |s|
    && (i == start || s[i - 1] == ',') && (j == |s| || s[j] == ',')
    && forall k :: i <= k < j ==> s[k] != ','
  }

  ghost predicate Listed(s: string, start: nat, name: string) {
    exists i, j :: NameAt(s, start, i, j) && s[i..j] == name
  }

  /** Some known name beginning before `limit` stands for the mechanism. */
  ghost predicate NamedBefore(t: NameTable, s: string, start: nat, limit: int, m: nat) {
    exists i, j :: NameAt(s, start, i, j) && i < limit && s[i..j] in t && t[s[i..j]] == m
  }

  ghost predicate Named(t: NameTable, s: string, start: nat, m: nat) {
    exists name :: name in t && t[name] == m && Listed(s, start, name)
  }

  predicate Negative(config: string) { |config| > 0 && config[0] == '-' }

  /** What the configuration enables. */
  ghost predicate Enabled(t: NameTable, config: string, m: nat) {
    if config == "ALL" then m in t.Values
    else if Negative(config) then m in t.Values && !Named(t, config, 1, m)
    else Named(t, config, 0, m)
  }

  // ----- the scanner ---------------------------------------------------------------------------------

  lemma OneMoreName(t: NameTable, s: string, start: nat, i: int, j: int, m: nat)
    requires NameAt(s, start, i, j)
    ensures NamedBefore(t, s, start, j + 1, m) <==> NamedBefore(t, s, start, i, m) || (s[i..j] in t && t[s[i..j]] == m)
  {
    forall i', j' | NameAt(s, start, i', j') && i <= i' <= j
      ensures i' == i && j' == j
    {
    }
    if NamedBefore(t, s, start, i, m) {
      var i', j' :| NameAt(s, start, i', j') && i' < i && s[i'..j'] in t && t[s[i'..j']] == m;
      assert i' < j + 1;
    }
  }

  lemma NoNameYet(t: NameTable, s: string, start: nat, m: nat)
    ensures !NamedBefore(t, s, start, start, m)
  {
  }

  /** At the end of the list nothing is left out but perhaps an empty name. */
  lemma AllNamesRead(t: NameTable, s: string, start: nat, limit: int, m: nat)
    requires limit >= |s|
    ensures NamedBefore(t, s, start, limit, m) <==> Named(t, s, start, m)
  {
    if NamedBefore(t, s, start, limit, m) {
      var i, j :| NameAt(s, start, i, j) && i < limit && s[i..j] in t && t[s[i..j]] == m;
      assert Listed(s, start, s[i..j]);
    }
    if Named(t, s, start, m) {
      var name :| name in t && t[name] == m && Listed(s, start, name);
      var i, j :| NameAt(s, start, i, j) && s[i..j] == name;
      assert i < |s| || s[i..j] == "";
    }
  }

  method FindComma(s: string, from: nat) returns (pos: nat)
    requires from <= |s|
    ensures from <= pos <= |s| && (pos < |s| ==> s[pos] == ',') && forall k :: from <= k < pos ==> s[k] != ','
  {
    pos := from;
    while pos < |s| && s[pos] != ','
      invariant from <= pos <= |s| && forall k :: from <= k < pos ==> s[k] != ','
    {
      pos := pos + 1;
    }
  }

  /** Takes every occurrence of a mechanism off the list. */
  method RemoveAll(list: seq<nat>, m: nat) returns (rest: seq<nat>)
    ensures forall x :: x in rest <==> x in list && x != m
  {
    rest := [];
    var i := 0;
    while i < |list|
      invariant 0 <= i <= |list|
      invariant forall x :: x in rest <==> x in list[..i] && x != m
    {
      assert list[..i + 1] == list[..i] + [list[i]];
      if list[i] != m { rest := rest + [list[i]]; }
      i := i + 1;
    }
    assert list[..i] == list;
  }

  method AllMechanisms(t: NameTable) returns (list: seq<nat>)
    ensures forall m :: m in list <==> m in t.Values
  {
    list := [];
    var todo := t.Keys;
    while todo != {}
      invariant todo <= t.Keys
      invariant forall m :: m in list <==> exists name :: name in t && name !in todo && t[name] == m
      decreases todo
    {
      var name :| name in todo;
      list := list + [t[name]];
      todo := todo - {name};
    }
  }

  /** Scans the configured list name by name. What it leaves is exactly what the configuration says:
      unknown and empty names are passed over. */
  method PrepareSupportedMechanisms(t: NameTable, config: string) returns (supported: seq<nat>)
    ensures forall m :: m in supported <==> Enabled(t, config, m)
  {
    supported := AllMechanisms(t);
    if config == "ALL" { return; }
    var negative := |config| > 0 && config[0] == '-';
    var prev := 0;
    if negative { prev := 1; } else { supported := []; }
    ghost var start := prev;
    var more := true;
    forall m ensures !NamedBefore(t, config, start, prev, m) { NoNameYet(t, config, start, m); }
    while more
      invariant start == if negative then 1 else 0
      invariant start <= prev <= |config| + 1 && (more ==> prev <= |config| && (prev == start || config[prev - 1] == ','))
      invariant !more ==> prev >= |config|
      invariant negative ==> forall m :: m in supported <==> m in t.Values && !NamedBefore(t, config, start, prev, m)
      invariant !negative ==> forall m :: m in supported <==> NamedBefore(t, config, start, prev, m)
      decreases |config| + 1 - prev, more
    {
      var pos := FindComma(config, prev);
      var name := config[prev..pos];
      forall m ensures NamedBefore(t, config, start, pos + 1, m) <==> NamedBefore(t, config, start, prev, m) || (name in t && t[name] == m) {
        OneMoreName(t, config, start, prev, pos, m);
      }
      if name in t {
        if negative { supported := RemoveAll(supported, t[name]); } else { supported := supported + [t[name]]; }
      }
      prev := pos + 1;
      more := pos < |config| && prev < |config|;
    }
    forall m ensures NamedBefore(t, config, start, prev, m) <==> Named(t, config, start, m) {
      AllNamesRead(t, config, start, prev, m);
    }
  }

  /** May a key be used with a mechanism: it is enabled, and the key's own list, if there is one and it
      is not empty, names it. */
  predicate Permitted(supported: seq<nat>, allowed: Option<set<nat>>, m: nat) {
    m in supported && (allowed.Some? && allowed.value != {} ==> m in allowed.value)
  }

  /** `allowed` is the list of the key, None where no key is involved. */
  method IsMechanismPermitted(supported: seq<nat>, allowed: Option<set<nat>>, m: nat) returns (permitted: bool)
    ensures permitted <==> Permitted(supported, allowed, m)
  {
    var i := 0;
    while i < |supported| && supported[i] != m
      invariant 0 <= i <= |supported| && m !in supported[..i]
    {
      i := i + 1;
    }
    if i == |supported| { return false; }
    if allowed.None? { return true; }
    return allowed.value == {} || m in allowed.value;
  }

  // ----- consequences ------------------------------------------------------------------------------------

  /** Where no two names stand for the same mechanism, a key may be used with a known one exactly if the
      name is on a positive list of the configuration, or is not on a negative one, and the key's own
      list is empty or holds the mechanism. */
  lemma PermittedByName(t: NameTable, config: string, supported: seq<nat>, allowed: set<nat>, name: string)
    requires name in t && config != "ALL" && forall x, y :: x in t && y in t && t[x] == t[y] ==> x == y
    requires forall m :: m in supported <==> Enabled(t, config, m)
    ensures Permitted(supported, Some(allowed), t[name]) <==>
              && (allowed == {} || t[name] in allowed)
              && if Negative(config) then !Listed(config, 1, name) else Listed(config, 0, name)
  {
    assert t[name] in supported <==> Enabled(t, config, t[name]);
  }

  /** Appending a name the library does not know, or nothing at all, to a list changes nothing; only
      the word ALL loses its meaning. */
  lemma UnknownNamesIgnored(t: NameTable, config: string, name: string, m: nat)
    requires name !in t && ',' !in name && config != "ALL" && config + "," + name != "ALL"
    ensures Enabled(t, config + "," + name, m) <==> Enabled(t, config, m)
  {
    var longer := config + "," + name;
    assert Negative(longer) <==> Negative(config);
    var start := if Negative(config) then 1 else 0;
    forall known | known in t ensures Listed(longer, start, known) <==> Listed(config, start, known) {
      AppendedName(config, name, start, known);
    }
  }

  lemma AppendedName(s: string, name: string, start: nat, known: string)
    requires start <= |s| && ',' !in name && known != name
    ensures Listed(s + "," + name, start, known) <==> Listed(s, start, known)
  {
    var longer := s + "," + name;
    if Listed(s, start, known) {
      var i, j :| NameAt(s, start, i, j) && s[i..j] == known;
      SameName(s, longer, start, i, j);
    }
    if Listed(longer, start, known) {
      var i, j :| NameAt(longer, start, i, j) && longer[i..j] == known;
      if i <= |s| {
        assert longer[|s|] == ',';
        SameName(s, longer, start, i, j);
      } else {
        LastName(s, name, start, i, j);
      }
    }
  }

  lemma LastName(s: string, name: string, start: nat, i: int, j: int)
    requires start <= |s| < i && ',' !in name && NameAt(s + "," + name, start, i, j)
    ensures (s + "," + name)[i..j] == name
  {
    var longer := s + "," + name;
    assert forall k :: |s| < k < |longer| ==> longer[k] == name[k - |s| - 1] && longer[k] != ',';
  }

  lemma SameName(s: string, longer: string, start: nat, i: int, j: int)
    requires |s| < |longer| && s == longer[..|s|] && longer[|s|] == ',' && 0 <= i <= j <= |s|
    ensures NameAt(s, start, i, j) <==> NameAt(longer, start, i, j)
    ensures s[i..j] == longer[i..j]
  {
    assert forall k :: 0 <= k < |s| ==> s[k] == longer[k];
  }
}
