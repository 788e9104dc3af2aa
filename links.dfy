/**
 * Link handling of the collector (`get_games_links` and `get_game_id` in
 * data/scraper.py). The pages are given already parsed: the hrefs of the
 * anchors of a tournament's match table, and, per game link, the hrefs of the
 * anchors of the game's series menu (`None` when the page has no such menu).
 */
module Links {
  import opened Wrappers
  import opened Text
  import opened Sorting

  const GameSuffix := "/page-game/"
  const SummarySuffix := "/page-summary/"

  /** What one anchor of the match table contributes: a game or summary link, as a summary link. */
  function GameLink(href: Option<string>): Option<string> {
    match href
    case None => None
    case Some(h) =>
      if EndsWith(h, GameSuffix) || EndsWith(h, SummarySuffix) then
        Some(if EndsWith(h, GameSuffix) then ReplaceAll(h, GameSuffix, SummarySuffix) else h)
      else None
  }

  /** The links kept from the match table's anchors, in order. */
  function KeptLinks(hrefs: seq<Option<string>>): seq<string> {
    if hrefs == [] then []
    else
      var last := GameLink(hrefs[|hrefs| - 1]);
      KeptLinks(hrefs[..|hrefs| - 1]) + (if last.Some? then [last.value] else [])
  }

  /** `get_games_links`: no table gives no links; otherwise the kept links in order. */
  method GamesLinks(table: Option<seq<Option<string>>>) returns (links: seq<string>)
    ensures table.None? ==> links == []
    ensures table.Some? ==> links == KeptLinks(table.value)
  {
    links := [];
    if table.None? {
      return [];
    }
    var anchors := table.value;
    for k := 0 to |anchors|
      invariant links == KeptLinks(anchors[..k])
    {
      assert anchors[..k + 1][..k] == anchors[..k];
      var href := anchors[k];
      if href.Some? && (EndsWith(href.value, GameSuffix) || EndsWith(href.value, SummarySuffix)) {
        var h := href.value;
        if EndsWith(h, GameSuffix) {
          h := ReplaceAll(h, GameSuffix, SummarySuffix);
        }
        links := links + [h];
      }
    }
    assert anchors[..|anchors|] == anchors;
  }

  /**
   * An href is kept exactly when it ends with the game or the summary
   * suffix; a summary link is kept as it is. A game link has its final game
   * suffix turned into the summary suffix and the rest of it rewritten as
   * `replace` rewrites it on its own, unless it ends with the game suffix
   * twice over (there the two occurrences overlap on a "/" and only the
   * first is replaced).
   */
  lemma GameLinkMeaning(h: string)
    ensures GameLink(Some(h)).Some? <==> EndsWith(h, GameSuffix) || EndsWith(h, SummarySuffix)
    ensures EndsWith(h, SummarySuffix) ==> GameLink(Some(h)) == Some(h)
    ensures EndsWith(h, GameSuffix) && !EndsWith(h, "/page-game/page-game/") ==>
              GameLink(Some(h)) == Some(ReplaceAll(h[..|h| - |GameSuffix|], GameSuffix, SummarySuffix) + SummarySuffix)
  {
    if EndsWith(h, SummarySuffix) {
      assert !EndsWith(h, GameSuffix) by {
        assert h[|h| - 2] == SummarySuffix[12] != GameSuffix[9];
      }
    }
    if EndsWith(h, GameSuffix) && !EndsWith(h, "/page-game/page-game/") {
      var p := h[..|h| - |GameSuffix|];
      assert h == p + GameSuffix;
      forall i | |p| - |GameSuffix| < i < |p|
        ensures !OccursAt(p + GameSuffix, GameSuffix, i)
      {
        if OccursAt(h, GameSuffix, i) {
          GameSuffixOverlap(h, i);
        }
      }
      ReplaceAllAtEnd(p, GameSuffix, SummarySuffix);
    }
  }

  /**
   * A game link whose part before the final game suffix holds no other game
   * suffix becomes that same part followed by the summary suffix.
   */
  lemma GameLinkKeepsPrefix(p: string)
    ensures (forall i :: 0 <= i < |p| ==> !OccursAt(p, GameSuffix, i)) && !EndsWith(p + GameSuffix, "/page-game/page-game/") ==>
              GameLink(Some(p + GameSuffix)) == Some(p + SummarySuffix)
  {
    var h := p + GameSuffix;
    if (forall i :: 0 <= i < |p| ==> !OccursAt(p, GameSuffix, i)) && !EndsWith(h, "/page-game/page-game/") {
      assert EndsWith(h, GameSuffix) && h[..|h| - |GameSuffix|] == p;
      GameLinkMeaning(h);
      ReplaceAllUnchanged(p, GameSuffix, SummarySuffix);
    }
  }

  /** An occurrence of the game suffix overlapping a final one sits ten characters before it. */
  lemma GameSuffixOverlap(h: string, i: int)
    requires EndsWith(h, GameSuffix) && OccursAt(h, GameSuffix, i)
    requires |h| - 2 * |GameSuffix| < i < |h| - |GameSuffix|
    ensures EndsWith(h, "/page-game/page-game/")
  {
    var e := |h| - |GameSuffix|;
    var d := e - i;
    assert h[e] == h[e..][0] == '/';
    assert h[e] == h[i..i + |GameSuffix|][d] == GameSuffix[d];
    assert d == 10;
    assert h[|h| - 21..] == h[i..i + |GameSuffix|] + h[e + 1..];
  }

  const StatsPath := "/game/stats/"

  /** Length of the run of digits of `s` that starts at index `i`. */
  function DigitRun(s: string, i: nat): (n: nat)
    requires i <= |s|
    ensures i + n <= |s|
    ensures forall k :: i <= k < i + n ==> IsDigit(s[k])
    ensures i + n == |s| || !IsDigit(s[i + n])
    decreases |s| - i
  {
    if i == |s| || !IsDigit(s[i]) then 0 else 1 + DigitRun(s, i + 1)
  }

  /**
   * The pattern "/game/stats/(\d+)" followed by `tail` matches at `i`. The
   * digit group is the longest run of digits there: a regular-expression
   * search takes the longest run, and a shorter one could only be followed
   * by a digit, never by `tail` when `tail` does not start with one.
   */
  predicate IdMatchAt(s: string, tail: string, i: int) {
    && OccursAt(s, StatsPath, i)
    && var d := i + |StatsPath|;
       var n := DigitRun(s, d);
       n > 0 && OccursAt(s, tail, d + n)
  }

  /** The number the match at `i` captures: `int(match.group(1))`. */
  function IdAt(s: string, tail: string, i: int): nat
    requires IdMatchAt(s, tail, i)
  {
    var d := i + |StatsPath|;
    var digits := s[d..d + DigitRun(s, d)];
    assert AllDigits(digits) by {
      forall k | 0 <= k < |digits| ensures IsDigit(digits[k]) {
        assert digits[k] == s[d + k];
      }
    }
    ParseNat(digits)
  }

  /** `re.search` from index `i`: the ID of the leftmost match. */
  function FirstIdFrom(s: string, tail: string, i: nat): Option<nat>
    decreases |s| - i
  {
    if i >= |s| then None
    else if IdMatchAt(s, tail, i) then Some(IdAt(s, tail, i))
    else FirstIdFrom(s, tail, i + 1)
  }

  /** No match from `i` on gives `None`; otherwise the result is the ID of the leftmost match. */
  lemma {:induction false} FirstIdFromMeaning(s: string, tail: string, i: nat)
    ensures FirstIdFrom(s, tail, i).None? <==> forall m :: i <= m ==> !IdMatchAt(s, tail, m)
    ensures FirstIdFrom(s, tail, i).Some? ==>
              exists m :: i <= m && IdMatchAt(s, tail, m) && FirstIdFrom(s, tail, i).value == IdAt(s, tail, m)
                          && forall m' :: i <= m' < m ==> !IdMatchAt(s, tail, m')
    decreases |s| - i
  {
    if i < |s| && !IdMatchAt(s, tail, i) {
      FirstIdFromMeaning(s, tail, i + 1);
      if FirstIdFrom(s, tail, i).Some? {
        var m :| i + 1 <= m && IdMatchAt(s, tail, m) && FirstIdFrom(s, tail, i).value == IdAt(s, tail, m)
                 && forall m' :: i + 1 <= m' < m ==> !IdMatchAt(s, tail, m');
        assert forall m' :: i <= m' < m ==> !IdMatchAt(s, tail, m');
      }
    } else if i < |s| {
      assert forall m' :: i <= m' < i ==> !IdMatchAt(s, tail, m');
    } else {
      assert forall m :: i <= m ==> !OccursAt(s, StatsPath, m);
    }
  }

  /** The game ID a link names: `re.search(r"/game/stats/(\d+)", link)`. */
  function BaseId(link: string): Option<nat> {
    FirstIdFrom(link, "", 0)
  }

  /** The game ID a series-menu href names: `re.search(r"/game/stats/(\d+)/page-game", href)`. */
  function SiblingId(href: string): Option<nat> {
    FirstIdFrom(href, "/page-game", 0)
  }

  /** The series-menu IDs that differ from the base ID, in menu order. */
  function SiblingIds(hrefs: seq<string>, base: nat): seq<nat> {
    if hrefs == [] then []
    else
      var id := SiblingId(hrefs[|hrefs| - 1]);
      SiblingIds(hrefs[..|hrefs| - 1], base) + (if id.Some? && id.value != base then [id.value] else [])
  }

  /** The IDs one link contributes: none when it names no game; else its own and its siblings. */
  function LinkIds(link: string, menu: string -> Option<seq<string>>): seq<nat> {
    match BaseId(link)
    case None => []
    case Some(base) => [base] + SiblingIds(menu(link).GetOr([]), base)
  }

  /** The IDs of all links, link by link, before sorting. */
  function CollectIds(links: seq<string>, menu: string -> Option<seq<string>>): seq<nat> {
    if links == [] then []
    else CollectIds(links[..|links| - 1], menu) + LinkIds(links[|links| - 1], menu)
  }

  predicate NatLe(a: nat, b: nat) {
    a <= b
  }

  lemma NatLeIsTotalOrder()
    ensures IsTotal(NatLe) && IsAntisymmetric(NatLe) && IsTransitive(NatLe)
  {
  }

  /**
   * `get_game_id`: for each link naming a game, its ID and the IDs of its
   * series menu that differ from it; all of them in ascending order,
   * duplicates kept. `menu(link)` stands for the page fetched for `link`.
   */
  method GameIds(links: seq<string>, menu: string -> Option<seq<string>>) returns (ids: seq<nat>)
    ensures Sorted(ids, NatLe)
    ensures multiset(ids) == multiset(CollectIds(links, menu))
  {
    var collected: seq<nat> := [];
    for k := 0 to |links|
      invariant collected == CollectIds(links[..k], menu)
    {
      assert links[..k + 1][..k] == links[..k];
      var link := links[k];
      var base := BaseId(link);
      if base.Some? {
        var own := [base.value];
        var hrefs := menu(link).GetOr([]);
        for m := 0 to |hrefs|
          invariant own == [base.value] + SiblingIds(hrefs[..m], base.value)
        {
          assert hrefs[..m + 1][..m] == hrefs[..m];
          var id := SiblingId(hrefs[m]);
          if id.Some? && id.value != base.value {
            own := own + [id.value];
          }
        }
        assert hrefs[..|hrefs|] == hrefs;
        collected := collected + own;
      }
    }
    assert links[..|links|] == links;
    NatLeIsTotalOrder();
    ids := Sort(collected, NatLe);
  }

  lemma {:induction false} SiblingIdsMembers(hrefs: seq<string>, base: nat, x: nat)
    ensures x in SiblingIds(hrefs, base) <==> x != base && exists h :: h in hrefs && SiblingId(h) == Some(x)
  {
    if hrefs != [] {
      var init := hrefs[..|hrefs| - 1];
      SiblingIdsMembers(init, base, x);
      assert hrefs == init + [hrefs[|hrefs| - 1]];
    }
  }

  /** `x` is an ID that `link` contributes: its own, or a different one of its series menu. */
  ghost predicate Contributes(link: string, menu: string -> Option<seq<string>>, x: nat) {
    && BaseId(link).Some?
    && (|| x == BaseId(link).value
        || (x != BaseId(link).value && exists h :: h in menu(link).GetOr([]) && SiblingId(h) == Some(x)))
  }

  lemma LinkIdsMembers(link: string, menu: string -> Option<seq<string>>, x: nat)
    ensures x in LinkIds(link, menu) <==> Contributes(link, menu, x)
  {
    if BaseId(link).Some? {
      SiblingIdsMembers(menu(link).GetOr([]), BaseId(link).value, x);
    }
  }

  /**
   * The IDs collected are exactly those the links contribute: the ID of
   * every link that names a game, and every ID its series menu names that
   * differs from that link's own. Links that name no game contribute nothing.
   */
  lemma {:induction false} GameIdsMembers(links: seq<string>, menu: string -> Option<seq<string>>, x: nat)
    ensures x in CollectIds(links, menu) <==> exists link :: link in links && Contributes(link, menu, x)
  {
    if links != [] {
      var init := links[..|links| - 1];
      var last := links[|links| - 1];
      GameIdsMembers(init, menu, x);
      LinkIdsMembers(last, menu, x);
      assert links == init + [last];
    }
  }

  /** A link that names no game leaves the collected IDs as they are. */
  lemma {:induction false} NonGameLinkIgnored(a: seq<string>, link: string, b: seq<string>,
                                               menu: string -> Option<seq<string>>)
    requires BaseId(link).None?
    ensures CollectIds(a + [link] + b, menu) == CollectIds(a + b, menu)
    decreases |b|
  {
    if b == [] {
      assert (a + [link] + b)[..|a + [link] + b| - 1] == a;
      assert a + b == a;
    } else {
      var b' := b[..|b| - 1];
      assert (a + [link] + b)[..|a + [link] + b| - 1] == a + [link] + b';
      assert (a + b)[..|a + b| - 1] == a + b';
      NonGameLinkIgnored(a, link, b', menu);
    }
  }
}
