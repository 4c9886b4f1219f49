/**
 * The building blocks of the markdown renderers (the collector's sections,
 * the synthesis fallbacks and the chat fallback reply). Each renderer
 * appends strings to a local list and joins it with "": here a rendered
 * text is a heading followed by groups, each group a title, the rendered
 * items of one list cut to the renderer's limit, and a closing string.
 */
module Render {
  import opened Wrappers
  import Text

  /**
   * How floats are printed: `:.2f`, `:.1f` and `str()`. Their digits are not
   * modelled, so the caller supplies them.
   */
  datatype Numerals = Numerals(fixed2: real -> string, fixed1: real -> string, repr: real -> string)

  /** An f-string hole holding an optional integer: `None` prints as "None". */
  function ShowInt(o: Option<int>): string {
    match o
    case None => "None"
    case Some(n) => Text.IntToString(n)
  }

  /** An f-string hole holding an optional string. */
  function ShowStr(o: Option<string>): string {
    match o
    case None => "None"
    case Some(s) => s
  }

  function Min(a: int, b: int): int {
    if a < b then a else b
  }

  /** A titled list: `title`, then the items, then `close`. */
  datatype Group = Group(title: string, items: seq<string>, close: string)

  function GroupText(g: Group): string {
    g.title + Text.Concat(g.items) + g.close
  }

  function GroupsText(gs: seq<Group>): string {
    if gs == [] then [] else GroupText(gs[0]) + GroupsText(gs[1..])
  }

  /** The lines rendered for each element, in order. */
  function Lines<T>(line: T -> string, xs: seq<T>): (r: seq<string>)
    ensures |r| == |xs| && forall i :: 0 <= i < |xs| ==> r[i] == line(xs[i])
  {
    if xs == [] then [] else [line(xs[0])] + Lines(line, xs[1..])
  }

  /**
   * `if xs: parts.append(title); for x in xs[:limit]: parts.append(line(x));
   * parts.append(close)`: no group at all for an empty list.
   */
  function Listing<T>(title: string, xs: seq<T>, line: T -> string, limit: nat, close: string): (r: seq<Group>)
    ensures |r| <= 1 && (r != [] <==> xs != [])
    ensures r != [] ==> r[0].title == title && r[0].close == close
                        && |r[0].items| == Min(limit, |xs|)
                        && forall i :: 0 <= i < |r[0].items| ==> r[0].items[i] == line(xs[i])
  {
    if xs == [] then [] else [Group(title, Lines(line, Text.Take(xs, limit)), close)]
  }

  /** The number of list items across the groups. */
  function ItemCount(gs: seq<Group>): nat {
    if gs == [] then 0 else |gs[0].items| + ItemCount(gs[1..])
  }

  /** Rendering consecutive groups is rendering each run and joining the texts. */
  lemma {:induction false} GroupsTextAppend(a: seq<Group>, b: seq<Group>)
    ensures GroupsText(a + b) == GroupsText(a) + GroupsText(b)
  {
    if a != [] {
      assert (a + b)[0] == a[0] && (a + b)[1..] == a[1..] + b;
      GroupsTextAppend(a[1..], b);
      calc {
        GroupsText(a + b);
        GroupText(a[0]) + GroupsText(a[1..] + b);
        GroupText(a[0]) + (GroupsText(a[1..]) + GroupsText(b));
        GroupText(a[0]) + GroupsText(a[1..]) + GroupsText(b);
      }
    } else {
      assert a + b == b;
    }
  }

  /** Item counts add up over consecutive groups. */
  lemma {:induction false} ItemCountAppend(a: seq<Group>, b: seq<Group>)
    ensures ItemCount(a + b) == ItemCount(a) + ItemCount(b)
  {
    if a != [] {
      assert (a + b)[0] == a[0] && (a + b)[1..] == a[1..] + b;
      ItemCountAppend(a[1..], b);
    } else {
      assert a + b == b;
    }
  }

  /** Every part of `"".join(parts)` occurs in it. */
  lemma {:induction false} ConcatContains(parts: seq<string>, i: nat)
    requires i < |parts|
    ensures Text.Contains(Text.Concat(parts), parts[i])
  {
    if i == 0 {
      Text.ContainsSelf(parts[0]);
      Text.ContainsInConcat([], parts[0], Text.Concat(parts[1..]), parts[0]);
      assert [] + parts[0] + Text.Concat(parts[1..]) == Text.Concat(parts);
    } else {
      ConcatContains(parts[1..], i - 1);
      Text.ContainsInConcat(parts[0], Text.Concat(parts[1..]), [], parts[i]);
      assert parts[0] + Text.Concat(parts[1..]) + [] == Text.Concat(parts);
    }
  }

  /** Every item of every group occurs in the rendered groups. */
  lemma {:induction false} GroupsContain(gs: seq<Group>, j: nat, i: nat)
    requires j < |gs| && i < |gs[j].items|
    ensures Text.Contains(GroupsText(gs), gs[j].items[i])
  {
    if j == 0 {
      ConcatContains(gs[0].items, i);
      Text.ContainsInConcat(gs[0].title, Text.Concat(gs[0].items), gs[0].close, gs[0].items[i]);
      Text.ContainsInConcat([], GroupText(gs[0]), GroupsText(gs[1..]), gs[0].items[i]);
      assert [] + GroupText(gs[0]) + GroupsText(gs[1..]) == GroupsText(gs);
    } else {
      GroupsContain(gs[1..], j - 1, i);
      Text.ContainsInConcat(GroupText(gs[0]), GroupsText(gs[1..]), [], gs[j].items[i]);
      assert GroupText(gs[0]) + GroupsText(gs[1..]) + [] == GroupsText(gs);
    }
  }

  /** A listing shows its first `limit` elements and holds exactly `min(limit, |xs|)` items. */
  lemma ListingFacts<T>(title: string, xs: seq<T>, line: T -> string, limit: nat, close: string)
    ensures var l := Listing(title, xs, line, limit, close);
            ItemCount(l) == Min(limit, |xs|)
            && forall i :: 0 <= i < Min(limit, |xs|) ==> Text.Contains(GroupsText(l), line(xs[i]))
  {
    var l := Listing(title, xs, line, limit, close);
    if xs != [] {
      assert ItemCount(l) == |l[0].items| + ItemCount(l[1..]);
      forall i | 0 <= i < Min(limit, |xs|) ensures Text.Contains(GroupsText(l), line(xs[i])) {
        GroupsContain(l, 0, i);
      }
    }
  }

  /** Whatever one of the consecutive parts shows, the whole shows. */
  lemma ShownInParts(h: string, g1: string, g2: string, g3: string, g4: string)
    ensures h + (g1 + g2 + g3 + g4) == h + g1 + g2 + g3 + g4
    ensures forall sub :: Text.Contains(g1, sub) ==> Text.Contains(h + g1 + g2 + g3 + g4, sub)
    ensures forall sub :: Text.Contains(g2, sub) ==> Text.Contains(h + g1 + g2 + g3 + g4, sub)
    ensures forall sub :: Text.Contains(g3, sub) ==> Text.Contains(h + g1 + g2 + g3 + g4, sub)
    ensures forall sub :: Text.Contains(g4, sub) ==> Text.Contains(h + g1 + g2 + g3 + g4, sub)
  {
    var all := h + g1 + g2 + g3 + g4;
    forall sub | Text.Contains(g1, sub) ensures Text.Contains(all, sub) {
      Text.ContainsInConcat(h, g1, g2 + g3 + g4, sub);
      assert h + g1 + (g2 + g3 + g4) == all;
    }
    forall sub | Text.Contains(g2, sub) ensures Text.Contains(all, sub) {
      Text.ContainsInConcat(h + g1, g2, g3 + g4, sub);
      assert h + g1 + g2 + (g3 + g4) == all;
    }
    forall sub | Text.Contains(g3, sub) ensures Text.Contains(all, sub) {
      Text.ContainsInConcat(h + g1 + g2, g3, g4, sub);
    }
    forall sub | Text.Contains(g4, sub) ensures Text.Contains(all, sub) {
      Text.ContainsInConcat(h + g1 + g2 + g3, g4, [], sub);
      assert h + g1 + g2 + g3 + g4 + [] == all;
    }
  }
}
