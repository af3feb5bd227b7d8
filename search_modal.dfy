/**
 * The search dialog of components/layout/SearchModal.tsx: which
 * conversations match the query, how the matches are grouped by the day
 * they were last active, and the label shown when nothing matches.
 *
 * Dates are reduced to local day numbers: `dayOf` maps a timestamp string
 * to the number of its calendar day, or `None` when `new Date(...)` cannot
 * read it (every comparison with an invalid date is false).
 */
module SearchModal {
  import opened Wrappers
  import opened Text
  import opened Seqs
  import opened ChatStore

  /** `conv.title.toLowerCase().includes(query.toLowerCase())`. */
  function TitleMatches(query: string): Conversation -> bool
  {
    (c: Conversation) => Contains(ToLower(c.title), ToLower(query))
  }

  /** `filteredConversations`: a blank query keeps the list as given; otherwise the matches, in order. */
  function FilterConversations(convs: seq<Conversation>, query: string): (r: seq<Conversation>)
    ensures Trim(query) == [] ==> r == convs
    ensures Trim(query) != [] ==> IsSubsequence(r, convs)
    ensures Trim(query) != [] ==> forall i :: 0 <= i < |r| ==> r[i] in convs && Contains(ToLower(r[i].title), ToLower(query))
    ensures Trim(query) != [] ==> forall i :: 0 <= i < |convs| && Contains(ToLower(convs[i].title), ToLower(query)) ==> convs[i] in r
    ensures Trim(query) != [] ==> forall c {:trigger multiset(r)[c]} :: multiset(r)[c] == if Contains(ToLower(c.title), ToLower(query)) then multiset(convs)[c] else 0
  {
    if Trim(query) == [] then convs
    else
      FilterIsSubsequence(convs, TitleMatches(query));
      FilterMembers(convs, TitleMatches(query));
      FilterCounts(convs, TitleMatches(query));
      Filter(convs, TitleMatches(query))
  }

  /** A string never contains a longer one. */
  lemma ContainsNoLonger(s: string, sub: string)
    requires Contains(s, sub)
    ensures |sub| <= |s|
  {
    var k := ContainsOffset(s, sub);
  }

  /**
   * The query's surrounding spaces are kept when matching: a query longer
   * than a title never finds it, even when only its spaces make it longer.
   */
  lemma UntrimmedQueryMatters(c: Conversation, query: string)
    requires Trim(query) != []
    requires |c.title| < |query|
    ensures FilterConversations([c], query) == []
  {
    if Contains(ToLower(c.title), ToLower(query)) {
      ContainsNoLonger(ToLower(c.title), ToLower(query));
    }
    assert !TitleMatches(query)(c);
  }

  datatype Group = Today | Yesterday | Previous7Days | Previous30Days | Older

  /** `conv.updatedAt || conv.createdAt`. */
  function ActivityDate(c: Conversation): string
  {
    if c.updatedAt != "" then c.updatedAt else c.createdAt
  }

  /** The group of a conversation whose day is `day`, today being `today`. */
  function GroupOfDay(day: Option<int>, today: int): (g: Group)
    ensures g == Today <==> day == Some(today)
    ensures g == Yesterday <==> day == Some(today - 1)
    ensures g == Previous7Days <==> day.Some? && day.value >= today - 7 && day.value != today && day.value != today - 1
    ensures g == Previous30Days <==> day.Some? && today - 30 <= day.value < today - 7
    ensures g == Older <==> day.None? || day.value < today - 30
  {
    if day.None? then Older
    else if day.value == today then Today
    else if day.value == today - 1 then Yesterday
    else if day.value >= today - 7 then Previous7Days
    else if day.value >= today - 30 then Previous30Days
    else Older
  }

  /** Days after today are not rejected: they fall in "Previous 7 Days". */
  lemma FutureDaysArePrevious7(day: int, today: int)
    requires day > today
    ensures GroupOfDay(Some(day), today) == Previous7Days
  {
  }

  function InGroup(g: Group, today: int, dayOf: string -> Option<int>): Conversation -> bool
  {
    (c: Conversation) => GroupOfDay(dayOf(ActivityDate(c)), today) == g
  }

  /** The group a conversation falls in. */
  function GroupOf(c: Conversation, today: int, dayOf: string -> Option<int>): Group
  {
    GroupOfDay(dayOf(ActivityDate(c)), today)
  }

  /** One conversation in front of a list joins the front of its own group only. */
  lemma FilterConsGroup(c: Conversation, t: seq<Conversation>, g: Group, today: int, dayOf: string -> Option<int>)
    ensures multiset(Filter([c] + t, InGroup(g, today, dayOf)))
      == (if GroupOf(c, today, dayOf) == g then multiset{c} else multiset{}) + multiset(Filter(t, InGroup(g, today, dayOf)))
  {
    assert ([c] + t)[0] == c && ([c] + t)[1..] == t;
  }

  /** The multiset union of the five groups of `s`. */
  function AllOfGroups(s: seq<Conversation>, today: int, dayOf: string -> Option<int>): multiset<Conversation>
  {
    multiset(Filter(s, InGroup(Today, today, dayOf))) + multiset(Filter(s, InGroup(Yesterday, today, dayOf)))
    + multiset(Filter(s, InGroup(Previous7Days, today, dayOf))) + multiset(Filter(s, InGroup(Previous30Days, today, dayOf)))
    + multiset(Filter(s, InGroup(Older, today, dayOf)))
  }

  /** The five groups together hold every conversation of the list exactly once. */
  lemma {:induction false} GroupsPartition(s: seq<Conversation>, today: int, dayOf: string -> Option<int>)
    ensures AllOfGroups(s, today, dayOf) == multiset(s)
  {
    if s != [] {
      var c, t := s[0], s[1..];
      assert s == [c] + t;
      GroupsPartition(t, today, dayOf);
      FilterConsGroup(c, t, Today, today, dayOf);
      FilterConsGroup(c, t, Yesterday, today, dayOf);
      FilterConsGroup(c, t, Previous7Days, today, dayOf);
      FilterConsGroup(c, t, Previous30Days, today, dayOf);
      FilterConsGroup(c, t, Older, today, dayOf);
      assert AllOfGroups(s, today, dayOf) == multiset{c} + AllOfGroups(t, today, dayOf);
    }
  }

  /** Adding one conversation at the end of a list adds it at the end of its own group and nowhere else. */
  lemma FilterSnoc(s: seq<Conversation>, c: Conversation, p: Conversation -> bool)
    ensures Filter(s + [c], p) == if p(c) then Filter(s, p) + [c] else Filter(s, p)
  {
    FilterConcat(s, [c], p);
    assert Filter([c], p) == if p(c) then [c] else [];
  }

  /** The five groups of `s`, keyed as the dialog keys them. */
  function Grouped(s: seq<Conversation>, today: int, dayOf: string -> Option<int>): map<Group, seq<Conversation>>
  {
    map[Today := Filter(s, InGroup(Today, today, dayOf)),
        Yesterday := Filter(s, InGroup(Yesterday, today, dayOf)),
        Previous7Days := Filter(s, InGroup(Previous7Days, today, dayOf)),
        Previous30Days := Filter(s, InGroup(Previous30Days, today, dayOf)),
        Older := Filter(s, InGroup(Older, today, dayOf))]
  }

  /** Pushing one more conversation onto its group keeps the map equal to the grouping of the longer list. */
  lemma GroupedSnoc(s: seq<Conversation>, c: Conversation, today: int, dayOf: string -> Option<int>)
    ensures var m := Grouped(s, today, dayOf); var g := GroupOf(c, today, dayOf);
      Grouped(s + [c], today, dayOf) == m[g := m[g] + [c]]
  {
    var m, g := Grouped(s, today, dayOf), GroupOf(c, today, dayOf);
    var n := Grouped(s + [c], today, dayOf);
    forall h | h in n
      ensures n[h] == m[g := m[g] + [c]][h]
    {
      FilterSnoc(s, c, InGroup(h, today, dayOf));
    }
    assert n.Keys == m[g := m[g] + [c]].Keys;
  }

  /** `groupedConversations`: each conversation pushed onto the group of its day, in list order. */
  method GroupByDate(convs: seq<Conversation>, today: int, dayOf: string -> Option<int>)
    returns (groups: map<Group, seq<Conversation>>)
    ensures groups.Keys == {Today, Yesterday, Previous7Days, Previous30Days, Older}
    ensures forall g :: g in groups ==> groups[g] == Filter(convs, InGroup(g, today, dayOf))
    ensures groups == Grouped(convs, today, dayOf)
  {
    groups := map[Today := [], Yesterday := [], Previous7Days := [], Previous30Days := [], Older := []];
    var i := 0;
    while i < |convs|
      invariant i <= |convs|
      invariant groups == Grouped(convs[..i], today, dayOf)
    {
      var c := convs[i];
      var g := GroupOfDay(dayOf(ActivityDate(c)), today);
      assert g == GroupOf(c, today, dayOf);
      assert convs[..i + 1] == convs[..i] + [c];
      GroupedSnoc(convs[..i], c, today, dayOf);
      groups := groups[g := groups[g] + [c]];
      i := i + 1;
    }
    assert convs[..i] == convs;
  }

  /** Each group keeps the list's order and holds every conversation of the list that falls in it. */
  lemma GroupsKeepOrder(s: seq<Conversation>, today: int, dayOf: string -> Option<int>)
    ensures forall g :: g in Grouped(s, today, dayOf) ==> IsSubsequence(Grouped(s, today, dayOf)[g], s)
    ensures forall g, i ::
      g in Grouped(s, today, dayOf) && 0 <= i < |s| && GroupOf(s[i], today, dayOf) == g ==> s[i] in Grouped(s, today, dayOf)[g]
  {
    forall g | g in Grouped(s, today, dayOf)
      ensures IsSubsequence(Grouped(s, today, dayOf)[g], s)
      ensures forall i :: 0 <= i < |s| && GroupOf(s[i], today, dayOf) == g ==> s[i] in Grouped(s, today, dayOf)[g]
    {
      FilterIsSubsequence(s, InGroup(g, today, dayOf));
      FilterMembers(s, InGroup(g, today, dayOf));
    }
  }

  /** The position of a group in the object literal, which is the order `Object.entries` lists them in. */
  function Rank(g: Group): nat
  {
    match g
    case Today => 0
    case Yesterday => 1
    case Previous7Days => 2
    case Previous30Days => 3
    case Older => 4
  }

  /**
   * `Object.entries(groupedConversations).map(...)`: the non-empty groups,
   * each under its heading, in the order the literal declares them.
   */
  function Sections(groups: map<Group, seq<Conversation>>): (r: seq<(Group, seq<Conversation>)>)
    ensures forall i :: 0 <= i < |r| ==> r[i].0 in groups && r[i].1 == groups[r[i].0] && r[i].1 != []
    ensures forall i, j :: 0 <= i < j < |r| ==> Rank(r[i].0) < Rank(r[j].0)
    ensures forall g :: g in groups && groups[g] != [] ==> (g, groups[g]) in r
  {
    SectionsFrom(groups, 0)
  }

  /** The group declared at position `k` of the literal. */
  function GroupAt(k: nat): (g: Group)
    requires k < 5
    ensures Rank(g) == k
  {
    if k == 0 then Today else if k == 1 then Yesterday else if k == 2 then Previous7Days
    else if k == 3 then Previous30Days else Older
  }

  /** The sections of the groups declared from position `k` on. */
  function SectionsFrom(groups: map<Group, seq<Conversation>>, k: nat): (r: seq<(Group, seq<Conversation>)>)
    ensures forall i :: 0 <= i < |r| ==> r[i].0 in groups && r[i].1 == groups[r[i].0] && r[i].1 != [] && k <= Rank(r[i].0)
    ensures forall i, j :: 0 <= i < j < |r| ==> Rank(r[i].0) < Rank(r[j].0)
    ensures forall g :: k <= Rank(g) && g in groups && groups[g] != [] ==> (g, groups[g]) in r
    decreases 5 - k
  {
    if k >= 5 then []
    else
      var g := GroupAt(k);
      var rest := SectionsFrom(groups, k + 1);
      assert forall h :: Rank(h) == k ==> h == g;
      if g in groups && groups[g] != [] then
        var r := [(g, groups[g])] + rest;
        assert forall i :: 0 < i < |r| ==> r[i] == rest[i - 1];
        r
      else rest
  }

  /** The empty-state line: shown only for an empty result, and it depends on the query as typed. */
  function EmptyStateLabel(filtered: seq<Conversation>, query: string): (line: Option<string>)
    ensures line.Some? <==> filtered == []
    ensures line.Some? ==> line.value == if query != "" then "No conversations found" else "No conversations yet"
  {
    if |filtered| == 0 then Some(if query != "" then "No conversations found" else "No conversations yet") else None
  }

  /** With no conversations at all, a query of spaces reads as a search that found nothing. */
  lemma BlankQueryOnEmptyList()
    ensures EmptyStateLabel(FilterConversations([], "  "), "  ") == Some("No conversations found")
  {
  }
}
