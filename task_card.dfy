/** The display helpers of the task card: label and member colours cycling
    through fixed palettes, member initials, the due-date line and the
    10-segment checklist bar. Everything here is a pure function of the card's
    properties. */
module TaskCard {
  import opened Wrappers
  import opened SegmentBar
  import opened Chars

  /** A task member as the card receives it. */
  datatype Member = Member(id: int, name: string)

  /** The fields of the task's `Date` the card prints; `monthName` stands for the
      locale's short month name. */
  datatype DueDate = DueDate(day: int, monthName: string, year: int, hours: int, minutes: int)

  /** The card's properties. */
  datatype TaskCardProps = TaskCardProps(
    labelNames: seq<string>,
    taskName: string,
    position: int,
    members: seq<Member>,
    date: DueDate,
    checklist: int)

  /** A member's round badge: its background class and the initials written in it. */
  datatype Badge = Badge(color: string, initials: string)

  /** What the card renders, component by component. */
  datatype CardView = CardView(
    labelBar: seq<string>,
    title: string,
    attachments: int,
    badges: seq<Badge>,
    dateLine: string,
    checklistBar: seq<Segment>)

  const MemberColors: seq<string> := [
    "bg-rose-600", "bg-blue-600", "bg-green-600", "bg-yellow-600", "bg-purple-600",
    "bg-teal-600", "bg-orange-600", "bg-indigo-600", "bg-pink-600", "bg-gray-600"]

  const LabelColors: seq<string> := [
    "#C6EDFB", "#68BCD8", "#4DC693", "#FFD700", "#FF6347",
    "#6A5ACD", "#FF69B4", "#20B2AA", "#FF4500", "#9370DB"]

  const ChecklistFilled: string := "bg-[#2A2D4B]"

  // ---------------------------------------------------------------- colours

  /** `labelColors[index % labelColors.length]` */
  function LabelColor(index: nat): (c: string)
    ensures c in LabelColors
  {
    LabelColors[index % |LabelColors|]
  }

  /** `colors[index % colors.length]` */
  function MemberColor(index: nat): (c: string)
    ensures c in MemberColors
  {
    MemberColors[index % |MemberColors|]
  }

  /** Colours repeat with the palette's period: label `i` and label `i + 10`
      share a colour, and so do member badges `i` and `i + 10`. */
  lemma ColorsCycle(i: nat)
    ensures LabelColor(i + |LabelColors|) == LabelColor(i)
    ensures MemberColor(i + |MemberColors|) == MemberColor(i)
    ensures i < |LabelColors| ==> LabelColor(i) == LabelColors[i]
    ensures i < |MemberColors| ==> MemberColor(i) == MemberColors[i]
  {
    assert (i + 10) % 10 == i % 10;
  }

  /** One coloured stripe per label, in label order. */
  function LabelBar(labelNames: seq<string>): (bar: seq<string>)
    ensures |bar| == |labelNames|
    ensures forall i :: 0 <= i < |bar| ==> bar[i] == LabelColor(i) && bar[i] in LabelColors
  {
    seq(|labelNames|, i requires 0 <= i < |labelNames| => LabelColor(i))
  }

  // ---------------------------------------------------------------- initials

  /** ASCII part of `String.prototype.toUpperCase` on one character. */
  function ToUpper(c: char): (u: char)
    ensures IsLower(c) ==> IsUpper(u) && u as int - 'A' as int == c as int - 'a' as int
    ensures !IsLower(c) ==> u == c
  {
    if IsLower(c) then (c as int - 'a' as int + 'A' as int) as char else c
  }

  /** `s.split(" ")`: the pieces between single spaces, empty pieces included. */
  function Split(s: string): (pieces: seq<string>)
    ensures |pieces| >= 1
  {
    if s == [] then [""] else PushChar(s[0], Split(s[1..]))
  }

  /** Splitting `[c] + t` from the pieces of `t`: a space starts a new, empty
      first piece; any other character joins the front of the first piece. */
  function PushChar(c: char, pieces: seq<string>): (r: seq<string>)
    requires |pieces| >= 1
    ensures |r| >= 1
  {
    if c == ' ' then [""] + pieces else [[c] + pieces[0]] + pieces[1..]
  }

  /** `pieces.join(" ")` */
  function Join(pieces: seq<string>): string
    requires |pieces| >= 1
  {
    if |pieces| == 1 then pieces[0] else pieces[0] + " " + Join(pieces[1..])
  }

  /** Number of spaces in `s`. */
  function SpaceCount(s: string): nat
  {
    if s == [] then 0 else (if s[0] == ' ' then 1 else 0) + SpaceCount(s[1..])
  }

  /** Splitting on spaces gives one more piece than there are spaces, no piece
      holds a space, and joining the pieces with spaces gives back `s`. */
  lemma {:induction false} SplitJoin(s: string)
    ensures |Split(s)| == SpaceCount(s) + 1
    ensures forall i :: 0 <= i < |Split(s)| ==> ' ' !in Split(s)[i]
    ensures Join(Split(s)) == s
  {
    if s != [] {
      SplitJoin(s[1..]);
      var rest := Split(s[1..]);
      if s[0] == ' ' {
        assert Split(s)[1..] == rest;
      } else {
        var pieces := Split(s);
        assert pieces[1..] == rest[1..];
        forall i | 0 <= i < |pieces| ensures ' ' !in pieces[i] {
          if i > 0 { assert pieces[i] == rest[i]; }
        }
        if |rest| == 1 {
          assert Join(pieces) == [s[0]] + rest[0];
        } else {
          assert Join(pieces) == [s[0]] + rest[0] + " " + Join(rest[1..]);
        }
        assert s == [s[0]] + s[1..];
      }
    }
  }

  /** How `Split` treats a leading character. */
  lemma SplitCons(c: char, t: string)
    ensures Split([c] + t) == PushChar(c, Split(t))
  {
    assert ([c] + t)[0] == c;
    assert ([c] + t)[1..] == t;
  }

  /** Pushing a character only touches the first piece. */
  lemma PushCharAppend(c: char, xs: seq<string>, ys: seq<string>)
    requires |xs| >= 1
    ensures PushChar(c, xs + ys) == PushChar(c, xs) + ys
  {
    if c != ' ' {
      assert (xs + ys)[0] == xs[0];
      assert (xs + ys)[1..] == xs[1..] + ys;
    }
  }

  /** A space in a name separates its pieces: the pieces of `a + [' '] + b` are
      those of `a` followed by those of `b`. */
  lemma {:induction false} SplitAtSpace(a: string, b: string)
    ensures Split(a + [' '] + b) == Split(a) + Split(b)
  {
    if a == [] {
      assert a + [' '] + b == [' '] + b;
      SplitCons(' ', b);
    } else {
      var t := a[1..];
      assert a == [a[0]] + t;
      assert a + [' '] + b == [a[0]] + (t + [' '] + b);
      SplitAtSpace(t, b);
      SplitCons(a[0], t + [' '] + b);
      SplitCons(a[0], t);
      PushCharAppend(a[0], Split(t), Split(b));
    }
  }

  /** `piece.charAt(0).toUpperCase()` */
  function FirstUpper(piece: string): string
  {
    if piece == [] then "" else [ToUpper(piece[0])]
  }

  /** `pieces.map(p => p.charAt(0).toUpperCase()).join("")` */
  function InitialsOf(pieces: seq<string>): string
  {
    if pieces == [] then "" else FirstUpper(pieces[0]) + InitialsOf(pieces[1..])
  }

  /** The initials written in a member's badge. */
  function Initials(name: string): string
  {
    InitialsOf(Split(name))
  }

  /** Number of non-empty pieces. */
  function NonEmptyCount(pieces: seq<string>): nat
  {
    if pieces == [] then 0 else (if pieces[0] != "" then 1 else 0) + NonEmptyCount(pieces[1..])
  }

  /** Each non-empty piece contributes exactly one character, its first one
      upper-cased; empty pieces contribute nothing. */
  lemma {:induction false} InitialsOfLength(pieces: seq<string>)
    ensures |InitialsOf(pieces)| == NonEmptyCount(pieces) <= |pieces|
  {
    if pieces != [] {
      InitialsOfLength(pieces[1..]);
    }
  }

  /** Initials of concatenated piece lists are the concatenated initials, so the
      initials keep the order of the pieces. */
  lemma {:induction false} InitialsOfAppend(ps: seq<string>, qs: seq<string>)
    ensures InitialsOf(ps + qs) == InitialsOf(ps) + InitialsOf(qs)
  {
    if ps == [] {
      assert ps + qs == qs;
    } else {
      assert (ps + qs)[0] == ps[0];
      assert (ps + qs)[1..] == ps[1..] + qs;
      InitialsOfAppend(ps[1..], qs);
    }
  }

  /** The initials of a name are no longer than its number of space-separated
      pieces. */
  lemma InitialsBound(name: string)
    ensures |Initials(name)| <= SpaceCount(name) + 1
  {
    SplitJoin(name);
    InitialsOfLength(Split(name));
  }

  /** The initials of `first + [' '] + last` are the initials of `first` followed by
      those of `last`. */
  lemma InitialsOfFullName(first: string, last: string)
    ensures Initials(first + [' '] + last) == Initials(first) + Initials(last)
  {
    SplitAtSpace(first, last);
    InitialsOfAppend(Split(first), Split(last));
  }

  /** A name without spaces yields at most one initial, its upper-cased first
      character. */
  lemma SingleWordInitials(name: string)
    requires ' ' !in name
    ensures Initials(name) == FirstUpper(name)
  {
    SplitJoin(name);
    assert |Split(name)| == 1 by {
      if SpaceCount(name) != 0 { SpaceInName(name); }
    }
    assert Join(Split(name)) == Split(name)[0];
    assert Split(name) == [name];
    assert [name][1..] == [];
    assert InitialsOf([name]) == FirstUpper(name) + InitialsOf([]);
  }

  /** A string with a positive space count contains a space. */
  lemma {:induction false} SpaceInName(s: string)
    requires SpaceCount(s) > 0
    ensures ' ' in s
  {
    if s[0] != ' ' {
      SpaceInName(s[1..]);
      assert s[1..] <= s[1..];
      var k :| 0 <= k < |s[1..]| && s[1..][k] == ' ';
      assert s[k + 1] == ' ';
    }
  }

  /** One badge per member: colour by position, initials from the name. */
  function MemberBadges(members: seq<Member>): (badges: seq<Badge>)
    ensures |badges| == |members|
    ensures forall i :: 0 <= i < |badges| ==>
      badges[i].color == MemberColor(i) && badges[i].initials == Initials(members[i].name)
  {
    seq(|members|, i requires 0 <= i < |members| => Badge(MemberColor(i), Initials(members[i].name)))
  }

  // ---------------------------------------------------------------- due date

  function DigitChar(d: nat): (c: char)
    requires d < 10
    ensures '0' <= c <= '9'
  {
    ('0' as int + d) as char
  }

  predicate AllDigits(s: string)
  {
    forall i :: 0 <= i < |s| ==> IsDigit(s[i])
  }

  /** Decimal digits of a non-negative number, without leading zeros. */
  function NatToDecimal(n: nat): (s: string)
    ensures |s| >= 1 && AllDigits(s)
    ensures s[|s| - 1] == DigitChar(n % 10)
    ensures n < 10 <==> |s| == 1
    ensures s[0] == '0' <==> n == 0
  {
    if n < 10 then [DigitChar(n)] else NatToDecimal(n / 10) + [DigitChar(n % 10)]
  }

  /** `Number.prototype.toString()` on an integer. */
  function IntToDecimal(i: int): string
  {
    if i < 0 then "-" + NatToDecimal(-i) else NatToDecimal(i)
  }

  /** The number a string of decimal digits denotes. */
  function DecimalValue(s: string): nat
    requires AllDigits(s)
  {
    if s == [] then 0 else DecimalValue(s[..|s| - 1]) * 10 + (s[|s| - 1] as int - '0' as int)
  }

  /** Reading back the decimal digits of `n` gives `n`. */
  lemma {:induction false} DecimalRoundTrip(n: nat)
    ensures DecimalValue(NatToDecimal(n)) == n
  {
    if n >= 10 {
      DecimalRoundTrip(n / 10);
      var s := NatToDecimal(n);
      assert s[..|s| - 1] == NatToDecimal(n / 10);
    }
  }

  /** `s.padStart(2, "0")` */
  function PadStart2(s: string): string
  {
    if |s| >= 2 then s else seq(2 - |s|, _ => '0') + s
  }

  /** `s.slice(-2)`: the last two characters, or all of a shorter string. */
  function SliceLast2(s: string): string
  {
    if |s| <= 2 then s else s[|s| - 2..]
  }

  /** `date.getMinutes().toString().padStart(2, "0")` */
  function MinuteField(minutes: int): string
  {
    PadStart2(IntToDecimal(minutes))
  }

  /** `date.getFullYear().toString().slice(-2)` */
  function YearField(year: int): string
  {
    SliceLast2(IntToDecimal(year))
  }

  /** `${day} ${month} ${yy} at ${hours}:${mm}` */
  function DateLine(d: DueDate): string
  {
    IntToDecimal(d.day) + " " + d.monthName + " " + YearField(d.year)
      + " at " + IntToDecimal(d.hours) + ":" + MinuteField(d.minutes)
  }

  /** A minute count 0..59 renders as exactly two digits that read back as the
      minutes, with a leading zero exactly below 10. */
  lemma MinuteFieldTwoDigits(minutes: int)
    requires 0 <= minutes < 60
    ensures |MinuteField(minutes)| == 2 && AllDigits(MinuteField(minutes))
    ensures DecimalValue(MinuteField(minutes)) == minutes
    ensures MinuteField(minutes)[0] == '0' <==> minutes < 10
  {
    var s := NatToDecimal(minutes);
    DecimalRoundTrip(minutes);
    if minutes < 10 {
      var r := MinuteField(minutes);
      assert r == ['0', DigitChar(minutes)];
      assert r[..1] == ['0'];
    } else {
      assert s == NatToDecimal(minutes / 10) + [DigitChar(minutes % 10)];
      assert s[0] == DigitChar(minutes / 10);
    }
  }

  /** From year 10 on, the year field is two digits that read back as the year
      modulo 100. */
  lemma YearFieldLastTwoDigits(year: int)
    requires year >= 10
    ensures |YearField(year)| == 2 && AllDigits(YearField(year))
    ensures DecimalValue(YearField(year)) == year % 100
  {
    var q := year / 10;
    var s := NatToDecimal(year);
    var prefix := NatToDecimal(q);
    assert s == prefix + [DigitChar(year % 10)];
    var r := YearField(year);
    assert r == [DigitChar(q % 10), DigitChar(year % 10)];
    TwoDigitValue(q % 10, year % 10);
    LastTwoDigits(year);
  }

  /** The value of a two-digit string. */
  lemma TwoDigitValue(tens: nat, units: nat)
    requires tens < 10 && units < 10
    ensures DecimalValue([DigitChar(tens), DigitChar(units)]) == tens * 10 + units
  {
    var r := [DigitChar(tens), DigitChar(units)];
    assert r[..1] == [DigitChar(tens)];
    assert r[..1][..0] == [];
    assert DecimalValue(r[..1]) == tens;
    assert r[1] as int - '0' as int == units;
  }

  /** The last two decimal digits of `n` make `n % 100`. */
  lemma LastTwoDigits(n: nat)
    ensures n % 100 == (n / 10 % 10) * 10 + n % 10
  {
    var q := n / 10;
    assert n == 10 * q + n % 10;
    assert q == 10 * (q / 10) + q % 10;
    assert n == 100 * (q / 10) + ((q % 10) * 10 + n % 10);
  }

  /** A year below 10 renders whole, as its single digit. */
  lemma YearFieldShortYear(year: int)
    requires 0 <= year < 10
    ensures YearField(year) == [DigitChar(year)]
  {
  }

  /** The date line ends with a colon and the two-digit minutes. */
  lemma DateLineEndsWithMinutes(d: DueDate)
    requires 0 <= d.minutes < 60
    ensures var line := DateLine(d);
      |line| >= 3 && line[|line| - 3] == ':' && line[|line| - 2..] == MinuteField(d.minutes)
  {
    MinuteFieldTwoDigits(d.minutes);
    var line := DateLine(d);
    var head := IntToDecimal(d.day) + " " + d.monthName + " " + YearField(d.year)
      + " at " + IntToDecimal(d.hours);
    assert line == head + ":" + MinuteField(d.minutes);
  }

  // ---------------------------------------------------------------- checklist

  /** The 10-segment checklist bar for the stored count (`checklistCount ?? 0`). */
  function ChecklistBar(checklistCount: Option<int>): (bar: seq<Segment>)
    ensures |bar| == 10
    ensures forall i :: 0 <= i < 10 ==>
      (bar[i].background == ChecklistFilled <==> i < checklistCount.GetOr(0)) &&
      (bar[i].background == EmptyBackground <==> !(i < checklistCount.GetOr(0)))
    ensures forall i :: 0 <= i < 10 ==>
      (bar[i].corner == RoundedLeft <==> i == 0) && (bar[i].corner == RoundedRight <==> i == 9)
  {
    var count := checklistCount.GetOr(0);
    seq(10, i requires 0 <= i < 10 =>
      Segment(if i < count then ChecklistFilled else EmptyBackground, CornerAt(i, 9)))
  }

  /** The checklist bar shows the count clamped to [0, 10] filled segments; a
      `null` count shows none. */
  lemma ChecklistFilledCount(checklistCount: Option<int>)
    ensures CountFilled(ChecklistBar(checklistCount)) == Clamp(checklistCount.GetOr(0), 0, 10)
    ensures checklistCount.None? ==> CountFilled(ChecklistBar(checklistCount)) == 0
  {
    FilledBelowCount(ChecklistBar(checklistCount), checklistCount.GetOr(0));
  }

  // ---------------------------------------------------------------- the card

  /** The card: the checklist count state starts at the `checklist` property
      and is never changed. */
  function Render(props: TaskCardProps): (view: CardView)
    ensures |view.labelBar| == |props.labelNames|
    ensures |view.badges| == |props.members|
    ensures CountFilled(view.checklistBar) == Clamp(props.checklist, 0, 10)
  {
    ChecklistFilledCount(Some(props.checklist));
    CardView(
      LabelBar(props.labelNames),
      props.taskName,
      props.position,
      MemberBadges(props.members),
      DateLine(props.date),
      ChecklistBar(Some(props.checklist)))
  }
}
