/**
 * The dashboard: the suggested-activity cards, ordered on demand by the
 * selected filter (a sorted copy of the fixed list), the filter dropdown,
 * the year range of the calendar picker and the enrolled-avatar row.
 */
module Dashboard {
  import opened Storage

  const InterestFilter: string := "By Interest Level"
  const DurationFilter: string := "By Duration"
  const SkillsFilter: string := "By Skills"

  /** At most this many avatars are drawn on a card. */
  const MaxAvatars: nat := 3

  /** A suggested-activity card (its icon component is not modelled). */
  datatype SuggestedActivity = SuggestedActivity(
    id: string,
    title: string,
    description: string,
    duration: string,
    participants: int,
    totalParticipants: int,
    enrolledAvatars: seq<string>)

  /** The fixed list the dashboard sorts. */
  function SuggestedActivities(): seq<SuggestedActivity> {
    [ SuggestedActivity("1", "Budgeting Practice", "Practice managing money and expenses", "1 hour", 5, 6,
        ["/guy1.jpg", "/guy2.jpg", "/guy3.jpg", "/guy4.png", "/guy5.jpg"]),
      SuggestedActivity("2", "Color & Painting", "Creative expression through art", "45 min", 3, 6,
        ["/guy6.png", "/guy7.png", "/guy8.png"]),
      SuggestedActivity("3", "Music Genres", "Explore different types of music", "30 min", 4, 6,
        ["/guy1.jpg", "/guy2.jpg", "/guy3.jpg", "/guy4.png"]),
      SuggestedActivity("4", "Puzzle", "Problem solving and critical thinking", "1 hour", 2, 6,
        ["/guy5.jpg", "/guy6.png"]),
      SuggestedActivity("5", "Goal Setting", "Plan and track personal objectives", "45 min", 6, 6,
        ["/guy1.jpg", "/guy2.jpg", "/guy3.jpg", "/guy4.png", "/guy5.jpg", "/guy6.png"]) ]
  }

  // ---------------------------------------------------------------------
  // parseInt and the duration conversion
  // ---------------------------------------------------------------------

  /** The value of `c` as a digit in base `radix` (10 or 16), if it is one. */
  function DigitValue(c: char, radix: nat): (d: Option<nat>)
    requires radix == 10 || radix == 16
    ensures d.Some? ==> d.value < radix
    ensures ('0' <= c <= '9') ==> d == Some(c as int - '0' as int)
  {
    if '0' <= c <= '9' then Some(c as int - '0' as int)
    else if radix == 16 && 'a' <= c <= 'f' then Some(c as int - 'a' as int + 10)
    else if radix == 16 && 'A' <= c <= 'F' then Some(c as int - 'A' as int + 10)
    else None
  }

  /** The digit values of the longest prefix of `s` made of base-`radix` digits. */
  function LeadingDigits(s: string, radix: nat): seq<nat>
    requires radix == 10 || radix == 16
  {
    if s == [] || DigitValue(s[0], radix).None? then []
    else [DigitValue(s[0], radix).value] + LeadingDigits(s[1..], radix)
  }

  /** The number a digit sequence denotes, most significant digit first. */
  function DigitsToNat(ds: seq<nat>, radix: nat): nat {
    if ds == [] then 0
    else DigitsToNat(ds[..|ds| - 1], radix) * radix + ds[|ds| - 1]
  }

  /** The number written by the leading base-`radix` digits of `v`; none at all is NaN. */
  function DigitsValue(v: string, radix: nat): Option<nat>
    requires radix == 10 || radix == 16
  {
    var ds := LeadingDigits(v, radix);
    if ds == [] then None else Some(DigitsToNat(ds, radix))
  }

  /** An unsigned numeral: a `0x`/`0X` prefix selects base 16, otherwise base 10. */
  function ParseUnsigned(u: string): Option<nat> {
    if |u| >= 2 && u[0] == '0' && (u[1] == 'x' || u[1] == 'X') then DigitsValue(u[2..], 16)
    else DigitsValue(u, 10)
  }

  /**
   * `parseInt(s)` without a radix: leading whitespace is skipped, one sign
   * is read, then an unsigned numeral; no digits at all is NaN (`None`).
   */
  function ParseInt(s: string): Option<int> {
    var t := TrimStart(s);
    if t != [] && t[0] == '-' then
      match ParseUnsigned(t[1..])
      case None => None
      case Some(m) => Some(-(m as int))
    else if t != [] && t[0] == '+' then
      match ParseUnsigned(t[1..])
      case None => None
      case Some(m) => Some(m)
    else
      match ParseUnsigned(t)
      case None => None
      case Some(m) => Some(m)
  }

  /** `sub` occurs in `s` starting at position `k`. */
  predicate OccursAt(s: string, sub: string, k: int) {
    0 <= k && k + |sub| <= |s| && s[k..k + |sub|] == sub
  }

  /** `String.prototype.includes`. */
  predicate Contains(s: string, sub: string) {
    exists k :: 0 <= k <= |s| && OccursAt(s, sub, k)
  }

  /** `getDurationInMinutes`: the leading number, times 60 when the text mentions "hour". */
  function DurationInMinutes(duration: string): Option<int> {
    match ParseInt(duration)
    case None => None
    case Some(n) => Some(if Contains(duration, "hour") then n * 60 else n)
  }

  /** Decimal text of a natural number, as a template would print it. */
  function NatToString(n: nat): (s: string)
    ensures |s| >= 1 && forall i :: 0 <= i < |s| ==> '0' <= s[i] <= '9'
    ensures n != 0 ==> s[0] != '0'
  {
    if n < 10 then [('0' as int + n) as char]
    else NatToString(n / 10) + [('0' as int + n % 10) as char]
  }

  lemma {:induction false} LeadingDigitsOfNumeral(digits: string, rest: string)
    requires forall i :: 0 <= i < |digits| ==> '0' <= digits[i] <= '9'
    requires rest == [] || DigitValue(rest[0], 10).None?
    ensures LeadingDigits(digits + rest, 10) == seq(|digits|, i requires 0 <= i < |digits| => (digits[i] as int - '0' as int) as nat)
  {
    if digits == [] {
      assert digits + rest == rest;
    } else {
      assert (digits + rest)[1..] == digits[1..] + rest;
      LeadingDigitsOfNumeral(digits[1..], rest);
    }
  }

  lemma {:induction false} NumeralValue(n: nat)
    ensures var s := NatToString(n);
      DigitsToNat(seq(|s|, i requires 0 <= i < |s| => (s[i] as int - '0' as int) as nat), 10) == n
  {
    var s := NatToString(n);
    var ds := seq(|s|, i requires 0 <= i < |s| => (s[i] as int - '0' as int) as nat);
    if n >= 10 {
      NumeralValue(n / 10);
      var p := NatToString(n / 10);
      assert ds[..|ds| - 1] == seq(|p|, i requires 0 <= i < |p| => (p[i] as int - '0' as int) as nat);
    }
  }

  /**
   * `parseInt` reads back the decimal text of any natural number, whatever
   * non-digit text follows it; only "0" followed by `x` or `X` is excluded,
   * since that is a hexadecimal prefix.
   */
  lemma ParseIntReadsNumeral(n: nat, rest: string)
    requires rest == [] || (DigitValue(rest[0], 10).None? && (n == 0 ==> rest[0] != 'x' && rest[0] != 'X'))
    ensures ParseInt(NatToString(n) + rest) == Some(n)
  {
    var s := NatToString(n) + rest;
    assert s[0] == NatToString(n)[0];
    assert TrimStart(s) == s;
    ParseUnsignedNumeral(n, rest);
  }

  /** Without sign or leading whitespace, the decimal text of `n` reads back as `n`. */
  lemma ParseUnsignedNumeral(n: nat, rest: string)
    requires rest == [] || (DigitValue(rest[0], 10).None? && (n == 0 ==> rest[0] != 'x' && rest[0] != 'X'))
    ensures ParseUnsigned(NatToString(n) + rest) == Some(n)
  {
    var digits := NatToString(n);
    var s := digits + rest;
    assert !(|s| >= 2 && s[0] == '0' && (s[1] == 'x' || s[1] == 'X')) by {
      if |s| >= 2 {
        if |digits| >= 2 { assert s[1] == digits[1]; } else { assert s[1] == rest[0]; }
      }
    }
    LeadingDigitsOfNumeral(digits, rest);
    NumeralValue(n);
  }

  lemma MentionsHour(n: nat)
    ensures Contains(NatToString(n) + " hour", "hour")
  {
    var hours := NatToString(n) + " hour";
    var k := |NatToString(n)| + 1;
    assert hours[k..k + 4] == "hour";
    assert OccursAt(hours, "hour", k);
  }

  lemma NeverMentionsHour(n: nat)
    ensures !Contains(NatToString(n) + " min", "hour")
  {
    var digits := NatToString(n);
    var mins := digits + " min";
    forall k | 0 <= k < |mins| ensures mins[k] != 'h' {
      if k < |digits| {
        assert mins[k] == digits[k];
      }
    }
    forall k | 0 <= k <= |mins| ensures !OccursAt(mins, "hour", k) {
      if k + 4 <= |mins| {
        assert mins[k..k + 4][0] == mins[k];
      }
    }
  }

  lemma HoursOfParsed(d: string, n: int)
    requires ParseInt(d) == Some(n) && Contains(d, "hour")
    ensures DurationInMinutes(d) == Some(60 * n)
  {
  }

  /** "N hour" mentions "hour", so it is read as N hours: 60 N minutes. */
  lemma DurationOfHours(n: nat)
    ensures DurationInMinutes(NatToString(n) + " hour") == Some(60 * n)
  {
    ParseIntReadsNumeral(n, " hour");
    MentionsHour(n);
    HoursOfParsed(NatToString(n) + " hour", n);
  }

  /** "N min" never mentions "hour", so it is read as N minutes. */
  lemma DurationOfMinutes(n: nat)
    ensures !Contains(NatToString(n) + " min", "hour")
    ensures DurationInMinutes(NatToString(n) + " min") == Some(n)
  {
    ParseIntReadsNumeral(n, " min");
    NeverMentionsHour(n);
  }

  /** The key the "By Duration" sort compares; a NaN duration counts as 0. */
  function DurationKey(a: SuggestedActivity): int {
    DurationInMinutes(a.duration).GetOr(0)
  }

  // ---------------------------------------------------------------------
  // Sorting a copy
  // ---------------------------------------------------------------------

  ghost predicate SortedBy<T>(s: seq<T>, key: T -> int) {
    forall i, j :: 0 <= i < j < |s| ==> key(s[i]) <= key(s[j])
  }

  /** The first `n` elements of `s` are in key order. */
  ghost predicate SortedPrefix<T>(s: seq<T>, key: T -> int, n: int) {
    forall p, q :: 0 <= p < q < n && q < |s| ==> key(s[p]) <= key(s[q])
  }

  /**
   * Insertion of `s[j]` into the sorted prefix `s[..i + 1]` is under way:
   * apart from position `j` the prefix is sorted, and `s[j]` is no larger
   * than anything after it in the prefix.
   */
  ghost predicate Inserting<T>(s: seq<T>, key: T -> int, i: int, j: int) {
    && 0 <= j <= i < |s|
    && (forall p, q :: 0 <= p < q <= i && p != j && q != j ==> key(s[p]) <= key(s[q]))
    && (forall q :: j < q <= i ==> key(s[j]) <= key(s[q]))
  }

  lemma SwapKeepsInserting<T>(s: seq<T>, key: T -> int, i: int, j: int)
    requires Inserting(s, key, i, j) && j > 0 && key(s[j - 1]) > key(s[j])
    ensures Inserting(s[j - 1 := s[j]][j := s[j - 1]], key, i, j - 1)
  {
  }

  lemma InsertionDone<T>(s: seq<T>, key: T -> int, i: int, j: int)
    requires Inserting(s, key, i, j) && (j == 0 || key(s[j - 1]) <= key(s[j]))
    ensures SortedPrefix(s, key, i + 1)
  {
    forall p, q | 0 <= p < q < i + 1 && q < |s| ensures key(s[p]) <= key(s[q]) {
      if q == j && p < j - 1 {
        assert key(s[p]) <= key(s[j - 1]);
      }
    }
  }

  /** `Array.prototype.sort` with a comparator `key(x) - key(y)`, in place. */
  method SortByKey<T>(a: array<T>, key: T -> int)
    modifies a
    ensures SortedBy(a[..], key)
    ensures multiset(a[..]) == old(multiset(a[..]))
  {
    var i := 0;
    while i < a.Length
      invariant 0 <= i <= a.Length
      invariant SortedPrefix(a[..], key, i)
      invariant multiset(a[..]) == old(multiset(a[..]))
    {
      InsertAt(a, key, i);
      i := i + 1;
    }
    assert SortedPrefix(a[..], key, a.Length);
  }

  /** Moves `a[i]` down into the sorted prefix `a[..i]` by adjacent swaps. */
  method InsertAt<T>(a: array<T>, key: T -> int, i: int)
    requires 0 <= i < a.Length && SortedPrefix(a[..], key, i)
    modifies a
    ensures SortedPrefix(a[..], key, i + 1)
    ensures multiset(a[..]) == old(multiset(a[..]))
  {
    var j := i;
    while j > 0 && key(a[j - 1]) > key(a[j])
      invariant Inserting(a[..], key, i, j)
      invariant multiset(a[..]) == old(multiset(a[..]))
    {
      SwapKeepsInserting(a[..], key, i, j);
      SwapAdjacent(a, j);
      j := j - 1;
    }
    InsertionDone(a[..], key, i, j);
  }

  /** Exchanges `a[j - 1]` and `a[j]`. */
  method SwapAdjacent<T>(a: array<T>, j: int)
    requires 0 < j < a.Length
    modifies a
    ensures a[..] == old(a[..])[j - 1 := old(a[j])][j := old(a[j - 1])]
    ensures multiset(a[..]) == old(multiset(a[..]))
  {
    a[j - 1], a[j] := a[j], a[j - 1];
  }

  /**
   * `getFilteredActivities`: a reordered copy of `activities` (the caller's
   * list is a value and cannot change). "By Interest Level" orders by
   * participants, most first; "By Duration" by minutes, fewest first; "By
   * Skills" by the locale's ranking of titles; any other filter keeps the
   * declared order.
   */
  method FilteredActivities(activities: seq<SuggestedActivity>, selectedFilter: string, titleRank: string -> int)
    returns (r: seq<SuggestedActivity>)
    ensures multiset(r) == multiset(activities)
    ensures selectedFilter == InterestFilter ==>
      forall i, j :: 0 <= i < j < |r| ==> r[i].participants >= r[j].participants
    ensures selectedFilter == DurationFilter ==>
      forall i, j :: 0 <= i < j < |r| ==> DurationKey(r[i]) <= DurationKey(r[j])
    ensures selectedFilter == SkillsFilter ==>
      forall i, j :: 0 <= i < j < |r| ==> titleRank(r[i].title) <= titleRank(r[j].title)
    ensures selectedFilter != InterestFilter && selectedFilter != DurationFilter && selectedFilter != SkillsFilter ==>
      r == activities
  {
    var copy := new SuggestedActivity[|activities|](i requires 0 <= i < |activities| => activities[i]);
    assert copy[..] == activities;
    if selectedFilter == InterestFilter {
      SortByKey(copy, (a: SuggestedActivity) => -a.participants);
    } else if selectedFilter == DurationFilter {
      SortByKey(copy, DurationKey);
    } else if selectedFilter == SkillsFilter {
      SortByKey(copy, (a: SuggestedActivity) => titleRank(a.title));
    }
    r := copy[..];
  }

  // ---------------------------------------------------------------------
  // Calendar years and the avatar row
  // ---------------------------------------------------------------------

  /** `Array.from({ length: 10 }, (_, i) => 2021 + i)`. */
  function Years(): (ys: seq<int>)
    ensures |ys| == 10 && ys[0] == 2021
    ensures forall i :: 0 < i < |ys| ==> ys[i] == ys[i - 1] + 1
  {
    seq(10, i requires 0 <= i < 10 => 2021 + i)
  }

  /** The year picker offers exactly 2021 to 2030, in increasing order. */
  lemma {:induction false} YearsRange()
    ensures forall y :: y in Years() <==> 2021 <= y <= 2030
    ensures forall i, j :: 0 <= i < j < |Years()| ==> Years()[i] < Years()[j]
  {
    var ys := Years();
    assert forall i :: 0 <= i < |ys| ==> ys[i] == 2021 + i by {
      forall i | 0 <= i < |ys| ensures ys[i] == 2021 + i {
        YearAt(ys, i);
      }
    }
    forall y | 2021 <= y <= 2030 ensures y in ys {
      assert ys[y - 2021] == y;
    }
  }

  lemma {:induction false} YearAt(ys: seq<int>, i: nat)
    requires |ys| == 10 && ys[0] == 2021
    requires forall k :: 0 < k < |ys| ==> ys[k] == ys[k - 1] + 1
    requires i < |ys|
    ensures ys[i] == 2021 + i
  {
    if i > 0 {
      YearAt(ys, i - 1);
    }
  }

  /** `enrolledAvatars.slice(0, 3)`: at most three, in order. */
  function ShownAvatars(a: SuggestedActivity): (shown: seq<string>)
    ensures |shown| == if |a.enrolledAvatars| < MaxAvatars then |a.enrolledAvatars| else MaxAvatars
    ensures shown == a.enrolledAvatars[..|shown|]
  {
    if |a.enrolledAvatars| < MaxAvatars then a.enrolledAvatars else a.enrolledAvatars[..MaxAvatars]
  }

  /** The "N+" badge: present exactly when more than three take part. */
  function OverflowBadge(a: SuggestedActivity): (badge: Option<int>)
    ensures badge.Some? <==> a.participants > MaxAvatars
    ensures badge.Some? ==> badge.value >= 1 && badge.value + MaxAvatars == a.participants
  {
    if a.participants > MaxAvatars then Some(a.participants - MaxAvatars) else None
  }

  /**
   * When a card lists one avatar per participant, the drawn avatars and
   * the badge together account for every participant.
   */
  lemma AvatarRowCountsEveryone(a: SuggestedActivity)
    requires |a.enrolledAvatars| == a.participants
    ensures |ShownAvatars(a)| + OverflowBadge(a).GetOr(0) == a.participants
  {
  }

  /** Every card of the fixed list lists one avatar per participant. */
  lemma SeedAvatarsMatchParticipants()
    ensures forall a :: a in SuggestedActivities() ==> |a.enrolledAvatars| == a.participants
  {
  }

  // ---------------------------------------------------------------------
  // The filter dropdown
  // ---------------------------------------------------------------------

  class DashboardPage {
    var selectedFilter: string
    var showFilterDropdown: bool

    constructor ()
      ensures selectedFilter == InterestFilter && !showFilterDropdown
    {
      selectedFilter := InterestFilter;
      showFilterDropdown := false;
    }

    /** The filter button's `onClick`. */
    method ToggleFilterDropdown()
      modifies this
      ensures showFilterDropdown == !old(showFilterDropdown) && selectedFilter == old(selectedFilter)
    {
      showFilterDropdown := !showFilterDropdown;
    }

    /** `handleFilterSelect(filter)`: records the choice and closes the dropdown. */
    method HandleFilterSelect(filter: string)
      modifies this
      ensures selectedFilter == filter && !showFilterDropdown
    {
      selectedFilter := filter;
      showFilterDropdown := false;
    }

    /** The cards as rendered: the fixed list ordered by the selected filter. */
    method GetFilteredActivities(titleRank: string -> int) returns (r: seq<SuggestedActivity>)
      ensures multiset(r) == multiset(SuggestedActivities())
      ensures selectedFilter == InterestFilter ==>
        forall i, j :: 0 <= i < j < |r| ==> r[i].participants >= r[j].participants
      ensures selectedFilter == DurationFilter ==>
        forall i, j :: 0 <= i < j < |r| ==> DurationKey(r[i]) <= DurationKey(r[j])
      ensures selectedFilter == SkillsFilter ==>
        forall i, j :: 0 <= i < j < |r| ==> titleRank(r[i].title) <= titleRank(r[j].title)
      ensures selectedFilter != InterestFilter && selectedFilter != DurationFilter && selectedFilter != SkillsFilter ==>
        r == SuggestedActivities()
    {
      r := FilteredActivities(SuggestedActivities(), selectedFilter, titleRank);
    }
  }
}
