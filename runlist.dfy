/** escape_runlist: turns the free-form run-list string of the handler
    settings into the ordered list of run-list items handed to the bootstrap
    templates. Segments are separated by commas outside brackets, so the
    brackets of an item may hold a comma of their own. */
module Runlist {
  import opened Wrappers
  import opened Strings

  // ---- splitting at the commas outside brackets

  /** The bracket depth after `c`, from depth `d`; a closing bracket with none
      open is ignored. */
  function Step(c: char, d: nat): nat {
    if c == '[' then d + 1 else if c == ']' && d > 0 then d - 1 else d
  }

  /** The bracket depth after reading `s` from depth `d`. */
  function Depth(s: string, d: nat): nat
    decreases |s|
  {
    if s == [] then d else Depth(s[1..], Step(s[0], d))
  }

  /** The index of the first comma of `s` outside brackets, reading from
      depth `d`. */
  function TopComma(s: string, d: nat): (r: Option<nat>)
    ensures r.Some? ==> r.value < |s| && s[r.value] == ','
    decreases |s|
  {
    if s == [] then None
    else if s[0] == ',' && d == 0 then Some(0)
    else
      var r := TopComma(s[1..], Step(s[0], d));
      if r.Some? then Some(r.value + 1) else None
  }

  /** `t` holds no comma outside brackets. */
  predicate Unbroken(t: string) {
    TopComma(t, 0).None?
  }

  /** Every bracket `t` opens, it closes. */
  predicate Closed(t: string) {
    Depth(t, 0) == 0
  }

  /** The segments of `s` between its commas outside brackets, in order. */
  function SplitTop(s: string): (parts: seq<string>)
    ensures |parts| >= 1
    decreases |s|
  {
    var c := TopComma(s, 0);
    if c.None? then [s] else [s[..c.value]] + SplitTop(s[c.value + 1..])
  }

  // ---- the items

  /** `t` is `prefix`, then anything, then a closing bracket. */
  predicate Bracketed(t: string, prefix: string) {
    |t| > |prefix| && t[..|prefix|] == prefix && t[|t| - 1] == ']'
  }

  /** A canonical run-list item: `recipe[...]` or `role[...]`; the brackets may
      hold `cookbook::recipe`. */
  predicate IsItem(t: string) {
    Bracketed(t, "recipe[") || Bracketed(t, "role[")
  }

  /** Removes one pair of double quotes around the whole segment. */
  function StripQuotes(t: string): (u: string)
    ensures |t| >= 2 && t[0] == '"' && t[|t| - 1] == '"' ==> t == "\"" + u + "\""
    ensures !(|t| >= 2 && t[0] == '"' && t[|t| - 1] == '"') ==> u == t
  {
    if |t| >= 2 && t[0] == '"' && t[|t| - 1] == '"' then t[1..|t| - 1] else t
  }

  /** Keeps an item verbatim and wraps a bare name as a recipe. */
  function Canonical(t: string): (item: string)
    ensures IsItem(item)
  {
    if IsItem(t) then t
    else
      var r := "recipe[" + t + "]";
      assert r[..|"recipe["|] == "recipe[";
      r
  }

  /** The items of the segments `parts`, in order; a segment that is empty once
      unquoted contributes nothing. */
  function EscapeSegments(parts: seq<string>): (items: seq<string>)
    ensures |items| <= |parts|
    decreases |parts|
  {
    if parts == [] then []
    else
      var t := StripQuotes(parts[0]);
      (if t == "" then [] else [Canonical(t)]) + EscapeSegments(parts[1..])
  }

  /** escape_runlist: every result is a canonical item, and an empty input
      gives no item. */
  function EscapeRunlist(raw: string): (items: seq<string>)
    ensures forall i :: 0 <= i < |items| ==> IsItem(items[i])
    ensures raw == "" ==> items == []
  {
    SplitTopParts(raw);
    EscapeSegmentsItems(SplitTop(raw));
    EscapeSegments(SplitTop(raw))
  }

  // ---- bracket depth

  lemma {:induction false} DepthAppend(x: string, y: string, d: nat)
    ensures Depth(x + y, d) == Depth(y, Depth(x, d))
    decreases |x|
  {
    if x == [] {
      assert x + y == y;
    } else {
      assert (x + y)[0] == x[0] && (x + y)[1..] == x[1..] + y;
      DepthAppend(x[1..], y, Step(x[0], d));
    }
  }

  /** Reading from deeper never ends shallower, and ends at most as much deeper. */
  lemma {:induction false} DepthDeeper(s: string, d: nat, e: nat)
    requires d <= e
    ensures Depth(s, d) <= Depth(s, e) <= Depth(s, d) + (e - d)
    decreases |s|
  {
    if s != [] {
      DepthDeeper(s[1..], Step(s[0], d), Step(s[0], e));
    }
  }

  /** The first comma outside brackets of `x + y`: that of `x` when it has one,
      otherwise that of `y` read from where `x` left off. */
  lemma {:induction false} TopCommaAppend(x: string, y: string, d: nat)
    ensures TopComma(x, d).Some? ==> TopComma(x + y, d) == TopComma(x, d)
    ensures TopComma(x, d).None? ==>
              TopComma(x + y, d)
              == (var r := TopComma(y, Depth(x, d)); if r.Some? then Some(r.value + |x|) else None)
    decreases |x|
  {
    if x == [] {
      assert x + y == y;
    } else {
      assert (x + y)[0] == x[0] && (x + y)[1..] == x[1..] + y;
      TopCommaAppend(x[1..], y, Step(x[0], d));
    }
  }

  /** Before the first comma outside brackets there is none, and every bracket
      opened there is closed. */
  lemma {:induction false} TopCommaPrefix(s: string, d: nat)
    requires TopComma(s, d).Some?
    ensures TopComma(s[..TopComma(s, d).value], d).None?
    ensures Depth(s[..TopComma(s, d).value], d) == 0
    decreases |s|
  {
    if !(s[0] == ',' && d == 0) {
      TopCommaPrefix(s[1..], Step(s[0], d));
      var i := TopComma(s, d).value;
      assert s[..i][1..] == s[1..][..i - 1];
    }
  }

  /** A comma with every bracket before it closed is found: the first comma
      outside brackets is there or earlier. With TopCommaPrefix this makes
      TopComma the first comma outside brackets, and None mean there is none. */
  lemma {:induction false} TopCommaComplete(s: string, d: nat, j: nat)
    requires j < |s| && s[j] == ',' && Depth(s[..j], d) == 0
    ensures TopComma(s, d).Some? && TopComma(s, d).value <= j
    decreases |s|
  {
    if j > 0 && !(s[0] == ',' && d == 0) {
      assert s[..j][1..] == s[1..][..j - 1];
      TopCommaComplete(s[1..], Step(s[0], d), j - 1);
    }
  }

  /** `t` is unbroken exactly when each of its commas has a bracket open
      before it. */
  lemma UnbrokenExactly(t: string)
    ensures Unbroken(t) <==> forall j :: 0 <= j < |t| && t[j] == ',' ==> Depth(t[..j], 0) > 0
  {
    if !Unbroken(t) {
      TopCommaPrefix(t, 0);
    }
    forall j | 0 <= j < |t| && t[j] == ',' && Depth(t[..j], 0) == 0
      ensures !Unbroken(t)
    {
      TopCommaComplete(t, 0, j);
    }
  }

  /** A comma inside brackets stays inside them when read from deeper. */
  lemma {:induction false} TopCommaDeeper(s: string, d: nat, e: nat)
    requires d <= e && TopComma(s, d).None?
    ensures TopComma(s, e).None?
    decreases |s|
  {
    if s != [] {
      TopCommaDeeper(s[1..], Step(s[0], d), Step(s[0], e));
    }
  }

  /** `x` holds no comma and no bracket. */
  predicate Unmarked(x: string) {
    forall i :: 0 <= i < |x| ==> x[i] != ',' && x[i] != '[' && x[i] != ']'
  }

  /** A string without commas and brackets is unbroken and leaves the depth alone. */
  lemma {:induction false} UnmarkedNeutral(x: string, d: nat)
    requires Unmarked(x)
    ensures TopComma(x, d).None? && Depth(x, d) == d
    decreases |x|
  {
    if x != [] {
      assert x[0] != ',' && x[0] != '[' && x[0] != ']';
      UnmarkedNeutral(x[1..], d);
    }
  }

  // ---- splitting

  /** A comma after a closed segment separates: the segments of `a`, then
      those of `b`. */
  lemma {:induction false} SplitTopAppend(a: string, b: string)
    requires Closed(a)
    ensures SplitTop(a + "," + b) == SplitTop(a) + SplitTop(b)
    decreases |a|
  {
    var s := a + "," + b;
    assert s == a + ([','] + b);
    TopCommaAppend(a, [','] + b, 0);
    var c := TopComma(a, 0);
    if c.None? {
      assert TopComma(s, 0) == Some(|a|);
      assert s[..|a|] == a && s[|a| + 1..] == b;
      calc {
        SplitTop(s);
        [s[..|a|]] + SplitTop(s[|a| + 1..]);
        [a] + SplitTop(b);
      }
    } else {
      var i := c.value;
      TopCommaPrefix(a, 0);
      assert TopComma(s, 0) == Some(i);
      assert s[..i] == a[..i];
      assert s[i + 1..] == a[i + 1..] + "," + b;
      assert a == a[..i] + ([','] + a[i + 1..]);
      DepthAppend(a[..i], [','] + a[i + 1..], 0);
      SplitTopAppend(a[i + 1..], b);
      calc {
        SplitTop(s);
        [s[..i]] + SplitTop(s[i + 1..]);
        [a[..i]] + (SplitTop(a[i + 1..]) + SplitTop(b));
        ([a[..i]] + SplitTop(a[i + 1..])) + SplitTop(b);
      }
    }
  }

  /** Splitting loses nothing: the segments written back with commas between
      them give the input. */
  lemma {:induction false} SplitTopJoinBack(s: string)
    ensures Join(SplitTop(s), ',') == s
    decreases |s|
  {
    var c := TopComma(s, 0);
    if c.Some? {
      var rest := s[c.value + 1..];
      SplitTopJoinBack(rest);
      var parts := SplitTop(s);
      assert parts[0] == s[..c.value] && parts[1..] == SplitTop(rest);
      assert s == s[..c.value] + [','] + rest;
    }
  }

  /** Every segment is unbroken, and every one but the last is closed. */
  lemma {:induction false} SplitTopParts(s: string)
    ensures forall i :: 0 <= i < |SplitTop(s)| ==> Unbroken(SplitTop(s)[i])
    ensures forall i :: 0 <= i < |SplitTop(s)| - 1 ==> Closed(SplitTop(s)[i])
    decreases |s|
  {
    var c := TopComma(s, 0);
    if c.Some? {
      TopCommaPrefix(s, 0);
      SplitTopParts(s[c.value + 1..]);
    }
  }

  /** Unbroken segments, all but the last closed, written with commas between
      them, split back into themselves. */
  lemma {:induction false} SplitTopJoin(parts: seq<string>)
    requires |parts| >= 1
    requires forall i :: 0 <= i < |parts| ==> Unbroken(parts[i])
    requires forall i :: 0 <= i < |parts| - 1 ==> Closed(parts[i])
    ensures SplitTop(Join(parts, ',')) == parts
    decreases |parts|
  {
    if |parts| > 1 {
      SplitTopJoin(parts[1..]);
      SplitTopAppend(parts[0], Join(parts[1..], ','));
      assert [parts[0]] + parts[1..] == parts;
    }
  }

  // ---- properties

  /** An item is canonical exactly when it is kept as it is. */
  lemma CanonicalFixed(t: string)
    ensures Canonical(t) == t <==> IsItem(t)
  {
    if !IsItem(t) {
      assert |Canonical(t)| == |t| + 8;
    }
  }

  /** Unquoting leaves the commas and brackets as they were. */
  lemma StripQuotesMarks(t: string)
    requires Unbroken(t)
    ensures Unbroken(StripQuotes(t)) && Depth(StripQuotes(t), 0) == Depth(t, 0)
  {
    if |t| >= 2 && t[0] == '"' && t[|t| - 1] == '"' {
      var x := StripQuotes(t);
      assert t == [t[0]] + (x + [t[|t| - 1]]);
      TopCommaAppend([t[0]], x + [t[|t| - 1]], 0);
      TopCommaAppend(x, [t[|t| - 1]], 0);
      DepthAppend([t[0]], x + [t[|t| - 1]], 0);
      DepthAppend(x, [t[|t| - 1]], 0);
    }
  }

  /** Quoting leaves the commas and brackets as they were. */
  lemma QuotedMarks(x: string)
    requires Unbroken(x)
    ensures Unbroken("\"" + x + "\"") && Depth("\"" + x + "\"", 0) == Depth(x, 0)
  {
    var t := "\"" + x + "\"";
    assert t == "\"" + (x + "\"");
    TopCommaAppend("\"", x + "\"", 0);
    TopCommaAppend(x, "\"", 0);
    DepthAppend("\"", x + "\"", 0);
    DepthAppend(x, "\"", 0);
  }

  /** `w[t]`, with `t` holding no comma outside brackets when read inside
      the new bracket, is unbroken; it is closed when `t` leaves at most that
      bracket open. */
  lemma WrapMarksInside(w: string, t: string)
    requires Unmarked(w) && TopComma(t, 1).None?
    ensures Unbroken(w + "[" + t + "]")
    ensures Depth(t, 1) <= 1 ==> Closed(w + "[" + t + "]")
  {
    var p := w + "[";
    UnmarkedNeutral(w, 0);
    DepthAppend(w, "[", 0);
    TopCommaAppend(w, "[", 0);
    assert TopComma(p, 0).None? && Depth(p, 0) == 1;
    assert w + "[" + t + "]" == p + (t + "]");
    TopCommaAppend(p, t + "]", 0);
    DepthAppend(p, t + "]", 0);
    TopCommaAppend(t, "]", 1);
    DepthAppend(t, "]", 1);
  }

  /** Wrapping an unbroken name in `w[...]` keeps it unbroken, and a closed
      one closed. */
  lemma WrapMarks(w: string, t: string)
    requires Unmarked(w) && Unbroken(t)
    ensures Unbroken(w + "[" + t + "]")
    ensures Closed(t) ==> Closed(w + "[" + t + "]")
  {
    TopCommaDeeper(t, 0, 1);
    DepthDeeper(t, 0, 1);
    WrapMarksInside(w, t);
  }

  /** `w[name]` with neither part holding a comma or a bracket is unbroken and
      closed. */
  lemma SimpleItemMarks(w: string, name: string)
    requires Unmarked(w) && Unmarked(name)
    ensures Unbroken(w + "[" + name + "]") && Closed(w + "[" + name + "]")
  {
    UnmarkedNeutral(name, 0);
    WrapMarks(w, name);
  }

  /** The items of unbroken segments, all but the last closed: canonical,
      unbroken, and all but the last closed. */
  lemma {:induction false} EscapeSegmentsItems(parts: seq<string>)
    requires forall i :: 0 <= i < |parts| ==> Unbroken(parts[i])
    requires forall i :: 0 <= i < |parts| - 1 ==> Closed(parts[i])
    ensures forall i :: 0 <= i < |EscapeSegments(parts)| ==>
              IsItem(EscapeSegments(parts)[i]) && Unbroken(EscapeSegments(parts)[i])
    ensures forall i :: 0 <= i < |EscapeSegments(parts)| - 1 ==> Closed(EscapeSegments(parts)[i])
    decreases |parts|
  {
    if parts != [] {
      EscapeSegmentsItems(parts[1..]);
      var t := StripQuotes(parts[0]);
      StripQuotesMarks(parts[0]);
      if t != "" && !IsItem(t) {
        WrapMarks("recipe", t);
        assert "recipe" + "[" + t + "]" == "recipe[" + t + "]";
      }
    }
  }

  /** escape_runlist yields canonical items only; none holds a comma outside
      its brackets, and every one but the last closes its brackets. */
  lemma EscapeRunlistItems(raw: string)
    ensures forall i :: 0 <= i < |EscapeRunlist(raw)| ==>
              IsItem(EscapeRunlist(raw)[i]) && Unbroken(EscapeRunlist(raw)[i])
    ensures forall i :: 0 <= i < |EscapeRunlist(raw)| - 1 ==> Closed(EscapeRunlist(raw)[i])
  {
    SplitTopParts(raw);
    EscapeSegmentsItems(SplitTop(raw));
  }

  /** A segment holding no comma outside brackets is its own item list (empty,
      or one item). */
  lemma EscapeSegment(t: string)
    requires Unbroken(t)
    ensures EscapeRunlist(t)
         == if StripQuotes(t) == "" then [] else [Canonical(StripQuotes(t))]
  {
  }

  lemma {:induction false} EscapeSegmentsAppend(xs: seq<string>, ys: seq<string>)
    ensures EscapeSegments(xs + ys) == EscapeSegments(xs) + EscapeSegments(ys)
    decreases |xs|
  {
    if xs == [] {
      assert xs + ys == ys;
    } else {
      assert (xs + ys)[0] == xs[0] && (xs + ys)[1..] == xs[1..] + ys;
      EscapeSegmentsAppend(xs[1..], ys);
    }
  }

  /** Order is preserved: the items of `a,b`, when `a` closes its brackets, are
      those of `a` followed by those of `b`. */
  lemma EscapeRunlistAppend(a: string, b: string)
    requires Closed(a)
    ensures EscapeRunlist(a + "," + b) == EscapeRunlist(a) + EscapeRunlist(b)
  {
    SplitTopAppend(a, b);
    EscapeSegmentsAppend(SplitTop(a), SplitTop(b));
  }

  lemma {:induction false} EscapeSegmentsOfItems(items: seq<string>)
    requires forall i :: 0 <= i < |items| ==> IsItem(items[i])
    ensures EscapeSegments(items) == items
    decreases |items|
  {
    if items != [] {
      var t := items[0];
      assert t[0] == 'r';
      assert StripQuotes(t) == t;
      CanonicalFixed(t);
      EscapeSegmentsOfItems(items[1..]);
      assert [t] + items[1..] == items;
    }
  }

  /** Canonical items written with commas between them are read back verbatim
      and in order, provided none holds a comma outside its brackets and all
      but the last close their brackets. */
  lemma EscapeRunlistOfItems(items: seq<string>)
    requires forall i :: 0 <= i < |items| ==> IsItem(items[i]) && Unbroken(items[i])
    requires forall i :: 0 <= i < |items| - 1 ==> Closed(items[i])
    ensures EscapeRunlist(Join(items, ',')) == items
  {
    if items != [] {
      SplitTopJoin(items);
      EscapeSegmentsOfItems(items);
    }
  }

  /** Normalising twice is normalising once. */
  lemma EscapeRunlistIdempotent(raw: string)
    ensures EscapeRunlist(Join(EscapeRunlist(raw), ',')) == EscapeRunlist(raw)
  {
    EscapeRunlistItems(raw);
    EscapeRunlistOfItems(EscapeRunlist(raw));
  }

  /** Any segment that is not already an item is wrapped as a recipe, even
      one that holds or ends in a bracket. */
  lemma Wrapped(name: string)
    requires !IsItem(name)
    ensures Canonical(name) == "recipe[" + name + "]"
  {
  }

  /** Two segments joined by a comma, the first closing its brackets: the
      items of the first, then those of the second. */
  lemma Pair(a: string, b: string, x: seq<string>, y: seq<string>)
    requires Unbroken(a) && Closed(a) && Unbroken(b)
    requires x == (if StripQuotes(a) == "" then [] else [Canonical(StripQuotes(a))])
    requires y == (if StripQuotes(b) == "" then [] else [Canonical(StripQuotes(b))])
    ensures EscapeRunlist(a + "," + b) == x + y
  {
    EscapeRunlistAppend(a, b);
    EscapeSegment(a);
    EscapeSegment(b);
  }

  // ---- the accepted formats, each with its expected items; an input with a
  // comma is written as its two segments joined by ","

  /** A segment that is already an item, unbroken and closed. */
  predicate ReadyItem(a: string) {
    IsItem(a) && Unbroken(a) && Closed(a) && StripQuotes(a) == a
  }

  lemma RecipeReady(name: string)
    requires Unmarked(name)
    ensures ReadyItem("recipe[" + name + "]")
  {
    var a := "recipe[" + name + "]";
    SimpleItemMarks("recipe", name);
    assert "recipe" + "[" + name + "]" == a;
    assert a[..7] == "recipe[" && a[0] == 'r';
  }

  lemma RoleReady(name: string)
    requires Unmarked(name)
    ensures ReadyItem("role[" + name + "]")
  {
    var a := "role[" + name + "]";
    SimpleItemMarks("role", name);
    assert "role" + "[" + name + "]" == a;
    assert a[..5] == "role[" && a[0] == 'r';
  }

  /** A bare name is unbroken and closed, and becomes a recipe. */
  lemma BareReady(name: string)
    requires Unmarked(name) && name != "" && name[0] != '"'
    ensures Unbroken(name) && Closed(name) && StripQuotes(name) == name
    ensures Canonical(name) == "recipe[" + name + "]"
  {
    UnmarkedNeutral(name, 0);
    assert name[|name| - 1] != ']';
    Wrapped(name);
  }

  lemma SingleItem(a: string)
    requires ReadyItem(a)
    ensures EscapeRunlist(a) == [a]
  {
    CanonicalFixed(a);
    EscapeSegment(a);
  }

  lemma PairItems(a: string, b: string)
    requires ReadyItem(a) && ReadyItem(b)
    ensures EscapeRunlist(a + "," + b) == [a, b]
  {
    CanonicalFixed(a);
    CanonicalFixed(b);
    Pair(a, b, [a], [b]);
  }

  lemma BarePair(a: string, b: string)
    requires Unmarked(a) && a != "" && a[0] != '"'
    requires Unmarked(b) && b != "" && b[0] != '"'
    ensures EscapeRunlist(a + "," + b) == ["recipe[" + a + "]", "recipe[" + b + "]"]
  {
    BareReady(a);
    BareReady(b);
    Pair(a, b, ["recipe[" + a + "]"], ["recipe[" + b + "]"]);
  }

  lemma ItemThenBare(a: string, b: string)
    requires ReadyItem(a)
    requires Unmarked(b) && b != "" && b[0] != '"'
    ensures EscapeRunlist(a + "," + b) == [a, "recipe[" + b + "]"]
  {
    CanonicalFixed(a);
    BareReady(b);
    Pair(a, b, [a], ["recipe[" + b + "]"]);
  }

  /** Quotes around either segment are dropped before it is classified. */
  lemma QuotedItemThenBare(x: string, y: string)
    requires ReadyItem(x)
    requires Unmarked(y) && y != "" && y[0] != '"'
    ensures EscapeRunlist("\"" + x + "\"" + "," + "\"" + y + "\"") == [x, "recipe[" + y + "]"]
  {
    CanonicalFixed(x);
    BareReady(y);
    QuotedMarks(x);
    QuotedMarks(y);
    var a, b := "\"" + x + "\"", "\"" + y + "\"";
    assert StripQuotes(a) == x && StripQuotes(b) == y;
    assert "\"" + x + "\"" + "," + "\"" + y + "\"" == a + "," + b;
    Pair(a, b, [x], ["recipe[" + y + "]"]);
  }

  lemma RecipeThenBare(n: string, b: string)
    requires Unmarked(n) && Unmarked(b) && b != "" && b[0] != '"'
    ensures EscapeRunlist("recipe[" + n + "]" + "," + b) == ["recipe[" + n + "]", "recipe[" + b + "]"]
  {
    RecipeReady(n);
    ItemThenBare("recipe[" + n + "]", b);
  }

  lemma RoleThenBare(n: string, b: string)
    requires Unmarked(n) && Unmarked(b) && b != "" && b[0] != '"'
    ensures EscapeRunlist("role[" + n + "]" + "," + b) == ["role[" + n + "]", "recipe[" + b + "]"]
  {
    RoleReady(n);
    ItemThenBare("role[" + n + "]", b);
  }

  lemma QuotedRoleThenBare(n: string, b: string)
    requires Unmarked(n) && Unmarked(b) && b != "" && b[0] != '"'
    ensures EscapeRunlist("\"" + ("role[" + n + "]") + "\"" + "," + "\"" + b + "\"")
         == ["role[" + n + "]", "recipe[" + b + "]"]
  {
    RoleReady(n);
    QuotedItemThenBare("role[" + n + "]", b);
  }

  lemma ExampleRecipe()
    ensures EscapeRunlist("recipe[abc]") == ["recipe[abc]"]
  {
    RecipeReady("abc");
    assert "recipe[" + "abc" + "]" == "recipe[abc]";
    SingleItem("recipe[abc]");
  }

  lemma ExampleRole()
    ensures EscapeRunlist("role[abc]") == ["role[abc]"]
  {
    RoleReady("abc");
    assert "role[" + "abc" + "]" == "role[abc]";
    SingleItem("role[abc]");
  }

  lemma Cookbook1Ready()
    ensures ReadyItem("recipe[cookbook1]")
  {
    RecipeReady("cookbook1");
    assert "recipe[" + "cookbook1" + "]" == "recipe[cookbook1]";
  }

  lemma Cookbook2Ready()
    ensures ReadyItem("recipe[cookbook2]")
  {
    RecipeReady("cookbook2");
    assert "recipe[" + "cookbook2" + "]" == "recipe[cookbook2]";
  }

  lemma RolenameReady()
    ensures ReadyItem("role[rolename]")
  {
    RoleReady("rolename");
    assert "role[" + "rolename" + "]" == "role[rolename]";
  }

  lemma ExampleTwoRecipes()
    ensures EscapeRunlist("recipe[cookbook1]" + "," + "recipe[cookbook2]")
         == ["recipe[cookbook1]", "recipe[cookbook2]"]
  {
    Cookbook1Ready();
    Cookbook2Ready();
    PairItems("recipe[cookbook1]", "recipe[cookbook2]");
  }

  lemma ExampleRecipeAndRole()
    ensures EscapeRunlist("recipe[cookbook1]" + "," + "role[rolename]")
         == ["recipe[cookbook1]", "role[rolename]"]
  {
    Cookbook1Ready();
    RolenameReady();
    PairItems("recipe[cookbook1]", "role[rolename]");
  }

  lemma ExampleBareNames()
    ensures EscapeRunlist("cookbook1" + "," + "cookbook2") == ["recipe[cookbook1]", "recipe[cookbook2]"]
  {
    BarePair("cookbook1", "cookbook2");
    assert "recipe[" + "cookbook1" + "]" == "recipe[cookbook1]";
    assert "recipe[" + "cookbook2" + "]" == "recipe[cookbook2]";
  }

  lemma ExampleQualifiedRecipe()
    ensures EscapeRunlist("recipe[cookbook::recipe]") == ["recipe[cookbook::recipe]"]
  {
    RecipeReady("cookbook::recipe");
    assert "recipe[" + "cookbook::recipe" + "]" == "recipe[cookbook::recipe]";
    SingleItem("recipe[cookbook::recipe]");
  }

  lemma ExampleRecipeAndBareName()
    ensures EscapeRunlist("recipe[recipe1]" + "," + "recipe2") == ["recipe[recipe1]", "recipe[recipe2]"]
  {
    RecipeThenBare("recipe1", "recipe2");
    assert "recipe[" + "recipe1" + "]" == "recipe[recipe1]";
    assert "recipe[" + "recipe2" + "]" == "recipe[recipe2]";
  }

  lemma ExampleRoleAndBareName()
    ensures EscapeRunlist("role[rolename]" + "," + "recipe") == ["role[rolename]", "recipe[recipe]"]
  {
    RoleThenBare("rolename", "recipe");
    assert "role[" + "rolename" + "]" == "role[rolename]";
    assert "recipe[" + "recipe" + "]" == "recipe[recipe]";
  }

  lemma ExampleQuoted()
    ensures EscapeRunlist("\"role[rolename]\"" + "," + "\"recipe\"") == ["role[rolename]", "recipe[recipe]"]
  {
    QuotedRoleThenBare("rolename", "recipe");
    QuotedLiteral();
  }

  lemma QuotedLiteral()
    ensures "\"" + ("role[" + "rolename" + "]") + "\"" + "," + "\"" + "recipe" + "\""
         == "\"role[rolename]\"" + "," + "\"recipe\""
    ensures "role[" + "rolename" + "]" == "role[rolename]"
    ensures "recipe[" + "recipe" + "]" == "recipe[recipe]"
  {
  }

  /** `x,y` read inside a bracket holds no comma outside brackets and leaves
      that bracket open. */
  lemma InnerMarks(x: string, y: string)
    requires Unmarked(x) && Unmarked(y)
    ensures TopComma(x + "," + y, 1).None? && Depth(x + "," + y, 1) == 1
  {
    UnmarkedNeutral(x, 1);
    UnmarkedNeutral(y, 1);
    assert x + "," + y == x + ("," + y);
    TopCommaAppend(x, "," + y, 1);
    DepthAppend(x, "," + y, 1);
    var r := "," + y;
    assert r[0] == ',' && r[1..] == y;
  }

  /** A comma inside the brackets of an item stays in the item. */
  lemma InnerComma(x: string, y: string)
    requires Unmarked(x) && Unmarked(y)
    ensures EscapeRunlist("recipe[" + x + "," + y + "]") == ["recipe[" + x + "," + y + "]"]
  {
    var t := x + "," + y;
    InnerMarks(x, y);
    WrapMarksInside("recipe", t);
    var a := "recipe[" + t + "]";
    assert "recipe" + "[" + t + "]" == a;
    assert a[..7] == "recipe[" && a[0] == 'r';
    SingleItem(a);
    assert "recipe[" + x + "," + y + "]" == a;
  }

  lemma ExampleInnerComma()
    ensures EscapeRunlist("recipe[a" + "," + "b]") == ["recipe[a" + "," + "b]"]
  {
    InnerComma("a", "b");
    assert "recipe[" + "a" + "," + "b" + "]" == "recipe[a" + "," + "b]";
  }
}
