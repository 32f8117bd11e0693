// The texts that identify messages, and how to read them back.
module MessageKeys {
  import opened Calendar
  import opened Models

  // ---- numbers ----

  predicate IsDigit(c: char) {
    '0' <= c <= '9'
  }

  function Digit(d: nat): (c: char)
    requires d < 10
    ensures IsDigit(c) && DigitValue(c) == d
  {
    ('0' as int + d) as char
  }

  function DigitValue(c: char): nat
    requires IsDigit(c)
  {
    c as int - '0' as int
  }

  predicate AllDigits(s: string) {
    forall i :: 0 <= i < |s| ==> IsDigit(s[i])
  }

  function NatText(n: nat): (s: string)
    ensures AllDigits(s) && |s| > 0
  {
    if n < 10 then [Digit(n)] else NatText(n / 10) + [Digit(n % 10)]
  }

  function IntText(n: int): string {
    if n < 0 then "-" + NatText(-n) else NatText(n)
  }

  // The last width digits of n, with leading zeros.
  function Padded(n: nat, width: nat): (s: string)
    ensures AllDigits(s) && |s| == width
  {
    if width == 0 then "" else Padded(n / 10, width - 1) + [Digit(n % 10)]
  }

  function ParseNat(s: string): nat
    requires AllDigits(s)
  {
    if s == "" then 0 else 10 * ParseNat(s[..|s| - 1]) + DigitValue(s[|s| - 1])
  }

  function ParseInt(s: string): int {
    if |s| > 0 && s[0] == '-' && AllDigits(s[1..]) then 0 - ParseNat(s[1..])
    else if AllDigits(s) then ParseNat(s)
    else 0
  }

  function Power10(width: nat): nat {
    if width == 0 then 1 else 10 * Power10(width - 1)
  }

  lemma {:induction false} NatTextParses(n: nat)
    ensures ParseNat(NatText(n)) == n
  {
    if n >= 10 {
      NatTextParses(n / 10);
      var s := NatText(n);
      assert s[..|s| - 1] == NatText(n / 10);
    } else {
      assert [Digit(n)][..0] == "";
    }
  }

  // No zeros in front, so a number has one text.
  lemma {:induction false} NatTextIsShort(n: nat)
    ensures n == 0 ==> NatText(n) == "0"
    ensures n > 0 ==> NatText(n)[0] != '0'
  {
    if n >= 10 {
      NatTextIsShort(n / 10);
      assert NatText(n)[0] == NatText(n / 10)[0];
    }
  }

  lemma IntTextParses(n: int)
    ensures ParseInt(IntText(n)) == n
  {
    if n < 0 {
      NatTextParses(-n);
      assert IntText(n)[1..] == NatText(-n);
    } else {
      NatTextParses(n);
      assert IsDigit(NatText(n)[0]);
    }
  }

  lemma DigitsParse(s: string)
    requires s != "" && AllDigits(s)
    ensures ParseInt(s) == ParseNat(s)
  {
    assert IsDigit(s[0]);
  }

  lemma {:induction false} PaddedParses(n: nat, width: nat)
    requires n < Power10(width)
    ensures ParseNat(Padded(n, width)) == n
  {
    if width > 0 {
      PaddedParses(n / 10, width - 1);
      var s := Padded(n, width);
      assert s[..width - 1] == Padded(n / 10, width - 1);
    }
  }

  // ---- colon-separated texts ----

  function Colons(s: string): nat {
    if s == "" then 0 else Colons(s[1..]) + if s[0] == ':' then 1 else 0
  }

  lemma {:induction false} ColonsConcat(s: string, t: string)
    ensures Colons(s + t) == Colons(s) + Colons(t)
  {
    if s == "" {
      assert s + t == t;
    } else {
      ColonsConcat(s[1..], t);
      assert (s + t)[1..] == s[1..] + t;
    }
  }

  lemma {:induction false} NoColons(s: string)
    ensures Colons(s) == 0 <==> ':' !in s
  {
    if s != "" {
      NoColons(s[1..]);
      assert s == [s[0]] + s[1..];
    }
  }

  function Join(parts: seq<string>): string
    requires |parts| > 0
  {
    if |parts| == 1 then parts[0] else parts[0] + ":" + Join(parts[1..])
  }

  function FirstColon(s: string): (i: nat)
    ensures i <= |s|
  {
    if s == "" || s[0] == ':' then 0 else FirstColon(s[1..]) + 1
  }

  lemma {:induction false} FirstColonAfter(head: string, rest: string)
    requires ':' !in head
    ensures FirstColon(head + ":" + rest) == |head|
  {
    var s := head + ":" + rest;
    if head != "" {
      assert s[0] == head[0] && s[1..] == head[1..] + ":" + rest;
      FirstColonAfter(head[1..], rest);
    }
  }

  // The text cut at its first n colons.
  function Split(s: string, n: nat): seq<string> {
    var i := FirstColon(s);
    if n == 0 || i == |s| then [s] else [s[..i]] + Split(s[i + 1..], n - 1)
  }

  lemma SplitAtHead(head: string, rest: string, n: nat)
    requires ':' !in head && n > 0
    ensures Split(head + ":" + rest, n) == [head] + Split(rest, n - 1)
  {
    var s := head + ":" + rest;
    FirstColonAfter(head, rest);
    assert s[..|head|] == head && s[|head| + 1..] == rest;
  }

  lemma {:induction false} SplitUndoesJoin(parts: seq<string>)
    requires |parts| > 0
    requires forall i :: 0 <= i < |parts| - 1 ==> ':' !in parts[i]
    ensures Split(Join(parts), |parts| - 1) == parts
  {
    if |parts| > 1 {
      var head, rest := parts[0], Join(parts[1..]);
      SplitAtHead(head, rest, |parts| - 1);
      SplitUndoesJoin(parts[1..]);
    }
  }

  lemma ThirdField(a: string, b: string, c: string, rest: string)
    requires ':' !in a && ':' !in b && ':' !in c
    ensures Split(a + ":" + (b + ":" + (c + ":" + rest)), 3) == [a, b, c, rest]
  {
    SplitAtHead(a, b + ":" + (c + ":" + rest), 3);
    SplitAtHead(b, c + ":" + rest, 2);
    SplitAtHead(c, rest, 1);
  }

  lemma {:induction false} JoinLast(parts: seq<string>, last: string)
    requires |parts| > 0
    ensures Join(parts + [last]) == Join(parts) + ":" + last
  {
    var all := parts + [last];
    assert all[1..] == parts[1..] + [last];
    if |parts| == 1 {
      assert Join(all[1..]) == last;
    } else {
      JoinLast(parts[1..], last);
      assert parts[0] + ":" + (Join(parts[1..]) + ":" + last) == parts[0] + ":" + Join(parts[1..]) + ":" + last;
    }
  }

  lemma {:induction false} ColonsOfJoin(parts: seq<string>)
    requires |parts| > 0 && forall i :: 0 <= i < |parts| - 1 ==> Colons(parts[i]) == 0
    ensures Colons(Join(parts)) == |parts| - 1 + Colons(parts[|parts| - 1])
  {
    if |parts| > 1 {
      ColonsConcat(parts[0] + ":", Join(parts[1..]));
      ColonsConcat(parts[0], ":");
      ColonsOfJoin(parts[1..]);
    }
  }

  // ---- dates ----

  function DateText(d: Date): (s: string)
    ensures |s| == 10
  {
    Padded(d.year, 4) + "-" + Padded(d.month, 2) + "-" + Padded(d.day, 2)
  }

  // An instant, as the response and replay keys spell it.
  datatype StampParts = StampParts(date: Date, hour: nat, minute: nat, second: nat, micro: nat)

  type Stamp = t: StampParts | t.hour < 24 && t.minute < 60 && t.second < 60 && t.micro < 1_000_000
    witness StampParts(DateParts(1, 1, 1), 0, 0, 0, 0)

  function SecondsText(t: Stamp): (s: string)
    ensures |s| == 19
  {
    DateText(t.date) + "T" + Padded(t.hour, 2) + ":" + Padded(t.minute, 2) + ":" + Padded(t.second, 2)
  }

  function StampText(t: Stamp): string {
    SecondsText(t) + if t.micro == 0 then "" else "." + Padded(t.micro, 6)
  }

  // Without separators, and to the second.
  function CompactText(t: Stamp): (s: string)
    ensures |s| == 14 && AllDigits(s)
  {
    Padded(t.date.year, 4) + Padded(t.date.month, 2) + Padded(t.date.day, 2)
    + Padded(t.hour, 2) + Padded(t.minute, 2) + Padded(t.second, 2)
  }

  lemma Powers()
    ensures Power10(2) == 100 && Power10(4) == 10_000 && Power10(6) == 1_000_000
  {
    assert Power10(1) == 10;
    assert Power10(3) == 1000;
    assert Power10(5) == 100_000;
  }

  lemma PaddedInjective(m: nat, n: nat, width: nat)
    requires m < Power10(width) && n < Power10(width) && Padded(m, width) == Padded(n, width)
    ensures m == n
  {
    PaddedParses(m, width);
    PaddedParses(n, width);
  }

  lemma DateTextInjective(d: Date, e: Date)
    requires DateText(d) == DateText(e)
    ensures d == e
  {
    Powers();
    var s, t := DateText(d), DateText(e);
    assert s[..4] == Padded(d.year, 4) && t[..4] == Padded(e.year, 4);
    assert s[5..7] == Padded(d.month, 2) && t[5..7] == Padded(e.month, 2);
    assert s[8..] == Padded(d.day, 2) && t[8..] == Padded(e.day, 2);
    PaddedInjective(d.year, e.year, 4);
    PaddedInjective(d.month, e.month, 2);
    PaddedInjective(d.day, e.day, 2);
  }

  lemma SecondsFields(t: Stamp)
    ensures var a := SecondsText(t);
            && a[..10] == DateText(t.date) && a[11..13] == Padded(t.hour, 2)
            && a[14..16] == Padded(t.minute, 2) && a[17..] == Padded(t.second, 2)
  {
    var upToHour := DateText(t.date) + "T" + Padded(t.hour, 2);
    var upToMinute := upToHour + ":" + Padded(t.minute, 2);
    assert SecondsText(t)[..16] == upToMinute && upToMinute[..13] == upToHour;
    assert SecondsText(t)[14..16] == upToMinute[14..16];
    assert SecondsText(t)[11..13] == upToHour[11..13] && SecondsText(t)[..10] == upToHour[..10];
  }

  lemma StampFields(t: Stamp)
    ensures |StampText(t)| == if t.micro == 0 then 19 else 26
    ensures StampText(t)[..19] == SecondsText(t)
    ensures t.micro != 0 ==> StampText(t)[20..] == Padded(t.micro, 6)
  {}

  lemma StampTextInjective(t: Stamp, u: Stamp)
    requires StampText(t) == StampText(u)
    ensures t == u
  {
    Powers();
    StampFields(t);
    StampFields(u);
    SecondsFields(t);
    SecondsFields(u);
    DateTextInjective(t.date, u.date);
    PaddedInjective(t.hour, u.hour, 2);
    PaddedInjective(t.minute, u.minute, 2);
    PaddedInjective(t.second, u.second, 2);
    if t.micro != 0 && u.micro != 0 {
      PaddedInjective(t.micro, u.micro, 6);
    }
  }

  lemma TwoDigitsParse(s: string, n: nat)
    requires n < 100 && s == Padded(n, 2)
    ensures ParseInt(s) == n
  {
    Powers();
    PaddedParses(n, 2);
    DigitsParse(s);
  }

  // An instant reads date, "T", hour, minute and second, and, if there is one, a fraction of six digits.
  lemma StampCanBeRead(t: Stamp)
    ensures var s := StampText(t);
            && |s| == (if t.micro == 0 then 19 else 26) && s[..10] == DateText(t.date)
            && s[10] == 'T' && s[13] == ':' && s[16] == ':'
            && ParseInt(s[11..13]) == t.hour && ParseInt(s[14..16]) == t.minute && ParseInt(s[17..19]) == t.second
            && (t.micro != 0 ==> s[19] == '.' && ParseInt(s[20..]) == t.micro)
  {
    var s, a := StampText(t), SecondsText(t);
    StampFields(t);
    SecondsFields(t);
    assert s[11..13] == a[11..13] && s[14..16] == a[14..16] && s[17..19] == a[17..] && s[..10] == a[..10];
    TwoDigitsParse(s[11..13], t.hour);
    TwoDigitsParse(s[14..16], t.minute);
    TwoDigitsParse(s[17..19], t.second);
    if t.micro != 0 {
      Powers();
      PaddedParses(t.micro, 6);
      DigitsParse(s[20..]);
    }
  }

  // Without separators it reads year, month, day, hour, minute and second.
  lemma CompactCanBeRead(t: Stamp)
    ensures var s := CompactText(t);
            && ParseInt(s[..4]) == t.date.year && ParseInt(s[4..6]) == t.date.month && ParseInt(s[6..8]) == t.date.day
            && ParseInt(s[8..10]) == t.hour && ParseInt(s[10..12]) == t.minute && ParseInt(s[12..]) == t.second
  {
    Powers();
    var s := CompactText(t);
    assert s[..4] == Padded(t.date.year, 4);
    PaddedParses(t.date.year, 4);
    DigitsParse(s[..4]);
    assert s[4..6] == Padded(t.date.month, 2) && s[6..8] == Padded(t.date.day, 2);
    TwoDigitsParse(s[4..6], t.date.month);
    TwoDigitsParse(s[6..8], t.date.day);
    assert s[8..10] == Padded(t.hour, 2) && s[10..12] == Padded(t.minute, 2) && s[12..] == Padded(t.second, 2);
    TwoDigitsParse(s[8..10], t.hour);
    TwoDigitsParse(s[10..12], t.minute);
    TwoDigitsParse(s[12..], t.second);
  }

  lemma CompactTextInjective(t: Stamp, u: Stamp)
    requires CompactText(t) == CompactText(u)
    ensures t.(micro := 0) == u.(micro := 0)
  {
    Powers();
    var a, b := CompactText(t), CompactText(u);
    assert a[..4] == Padded(t.date.year, 4) && b[..4] == Padded(u.date.year, 4);
    assert a[4..6] == Padded(t.date.month, 2) && b[4..6] == Padded(u.date.month, 2);
    assert a[6..8] == Padded(t.date.day, 2) && b[6..8] == Padded(u.date.day, 2);
    assert a[8..10] == Padded(t.hour, 2) && b[8..10] == Padded(u.hour, 2);
    assert a[10..12] == Padded(t.minute, 2) && b[10..12] == Padded(u.minute, 2);
    assert a[12..] == Padded(t.second, 2) && b[12..] == Padded(u.second, 2);
    PaddedInjective(t.date.year, u.date.year, 4);
    PaddedInjective(t.date.month, u.date.month, 2);
    PaddedInjective(t.date.day, u.date.day, 2);
    PaddedInjective(t.hour, u.hour, 2);
    PaddedInjective(t.minute, u.minute, 2);
    PaddedInjective(t.second, u.second, 2);
  }

  // ---- reminder keys ----

  datatype ReminderFields = ReminderFields(
    school: int, student: int, guardian: int, invoice: int, kind: ReminderType, dueDate: Date, version: string)

  function KindText(kind: ReminderType): string {
    match kind
    case Due14 => "due_14"
    case Due3 => "due_3"
    case DueToday => "due_today"
    case LateNotice => "late_notice"
    case PaymentConfirmed => "payment_confirmed"
    case CallbackAck => "callback_ack"
    case HardshipAck => "hardship_ack"
  }

  function ReminderParts(f: ReminderFields): seq<string> {
    [IntText(f.school), IntText(f.student), IntText(f.guardian), IntText(f.invoice),
     KindText(f.kind), DateText(f.dueDate), f.version]
  }

  function ComputeMessageKey(f: ReminderFields): string {
    IntText(f.school) + ":" + (IntText(f.student) + ":" + (IntText(f.guardian) + ":" + (IntText(f.invoice) + ":"
    + (KindText(f.kind) + ":" + (DateText(f.dueDate) + ":" + f.version)))))
  }

  lemma NoColonInEither(a: string, b: string)
    requires ':' !in a && ':' !in b
    ensures ':' !in a + b
  {}

  lemma DateHasNoColon(d: Date)
    ensures ':' !in DateText(d)
  {
    var year, month, day := Padded(d.year, 4), Padded(d.month, 2), Padded(d.day, 2);
    NoColonInEither(year, "-");
    NoColonInEither(year + "-", month);
    NoColonInEither(year + "-" + month, "-");
    NoColonInEither(year + "-" + month + "-", day);
  }

  lemma NumbersHaveNoColon(n: int, d: Date, kind: ReminderType)
    ensures ':' !in IntText(n) && ':' !in DateText(d) && ':' !in KindText(kind)
  {
    DateHasNoColon(d);
  }

  lemma KeyIsJoin(f: ReminderFields)
    ensures ComputeMessageKey(f) == Join(ReminderParts(f))
    ensures forall i :: 0 <= i < 6 ==> ':' !in ReminderParts(f)[i]
  {
    var p := ReminderParts(f);
    NumbersHaveNoColon(f.school, f.dueDate, f.kind);
    NumbersHaveNoColon(f.student, f.dueDate, f.kind);
    NumbersHaveNoColon(f.guardian, f.dueDate, f.kind);
    NumbersHaveNoColon(f.invoice, f.dueDate, f.kind);
    assert p[1..][1..] == p[2..] && p[2..][1..] == p[3..] && p[3..][1..] == p[4..] && p[4..][1..] == p[5..];
    assert p[5..][1..] == p[6..] && Join(p[6..]) == p[6];
    assert Join(p[5..]) == p[5] + ":" + p[6];
    assert Join(p[4..]) == p[4] + ":" + Join(p[5..]);
    assert Join(p[3..]) == p[3] + ":" + Join(p[4..]);
    assert Join(p[2..]) == p[2] + ":" + Join(p[3..]);
    assert Join(p[1..]) == p[1] + ":" + Join(p[2..]);
  }

  // A date reads year, month, day, of four, two and two digits.
  lemma DateCanBeRead(d: Date)
    ensures var s := DateText(d);
            && s[4] == '-' && s[7] == '-'
            && ParseInt(s[..4]) == d.year && ParseInt(s[5..7]) == d.month && ParseInt(s[8..]) == d.day
  {
    Powers();
    var s := DateText(d);
    assert s[..4] == Padded(d.year, 4) && s[5..7] == Padded(d.month, 2) && s[8..] == Padded(d.day, 2);
    PaddedParses(d.year, 4);
    PaddedParses(d.month, 2);
    PaddedParses(d.day, 2);
    DigitsParse(s[..4]);
    DigitsParse(s[5..7]);
    DigitsParse(s[8..]);
  }

  lemma KindCanBeRead(kind: ReminderType)
    ensures var word := KindText(kind);
            && (word == "due_14" <==> kind == Due14) && (word == "due_3" <==> kind == Due3)
            && (word == "due_today" <==> kind == DueToday) && (word == "late_notice" <==> kind == LateNotice)
            && (word == "payment_confirmed" <==> kind == PaymentConfirmed)
            && (word == "callback_ack" <==> kind == CallbackAck) && (word == "hardship_ack" <==> kind == HardshipAck)
  {
    assert "due_14"[4] != "due_3"[4] && |"due_today"| == 9 && |"late_notice"| == 11 && |"payment_confirmed"| == 17;
  }

  // Cutting a key at its first six colons gives the seven fields back, whatever the version contains.
  lemma KeyCanBeRead(f: ReminderFields)
    ensures Split(ComputeMessageKey(f), 6) == ReminderParts(f)
    ensures var p := Split(ComputeMessageKey(f), 6);
            && ParseInt(p[0]) == f.school && ParseInt(p[1]) == f.student && ParseInt(p[2]) == f.guardian
            && ParseInt(p[3]) == f.invoice && p[4] == KindText(f.kind) && p[5] == DateText(f.dueDate)
            && p[6] == f.version
  {
    KeyIsJoin(f);
    SplitUndoesJoin(ReminderParts(f));
    IntTextParses(f.school);
    IntTextParses(f.student);
    IntTextParses(f.guardian);
    IntTextParses(f.invoice);
  }

  lemma ReminderKeysEqualIff(f: ReminderFields, g: ReminderFields)
    ensures ComputeMessageKey(f) == ComputeMessageKey(g) <==> f == g
  {
    if ComputeMessageKey(f) == ComputeMessageKey(g) {
      KeyCanBeRead(f);
      KeyCanBeRead(g);
      var p, q := ReminderParts(f), ReminderParts(g);
      assert p[4] == KindText(f.kind) && q[4] == KindText(g.kind) && p[5] == DateText(f.dueDate);
      assert q[5] == DateText(g.dueDate);
      DateTextInjective(f.dueDate, g.dueDate);
      KindTextInjective(f.kind, g.kind);
    }
  }

  lemma KindTextInjective(k: ReminderType, l: ReminderType)
    requires KindText(k) == KindText(l)
    ensures k == l
  {
    assert KindText(k)[4] == KindText(l)[4] && KindText(k)[0] == KindText(l)[0];
    assert |KindText(k)| == |KindText(l)|;
  }

  // ---- every key the outbox can hold ----

  datatype MessageKey =
    | Reminder(fields: ReminderFields)
    | Response(school: int, guardian: int, at: Stamp)
    | Replay(original: MessageKey, at: Stamp)

  function Text(k: MessageKey): string {
    match k
    case Reminder(fields) => ComputeMessageKey(fields)
    case Response(school, guardian, at) =>
      IntText(school) + ":" + (IntText(guardian) + ":" + ("response" + ":" + StampText(at)))
    case Replay(original, at) => Text(original) + ReplaySuffix(at)
  }

  function ReplaySuffix(at: Stamp): (s: string)
    ensures |s| == 22
  {
    ":replay:" + CompactText(at)
  }

  ghost predicate EndsInReplay(version: string) {
    exists w: string, at: Stamp :: version == w + ReplaySuffix(at)
  }

  // Replay stamps carry no fraction, and no version ends as a replay key does.
  ghost predicate Plain(k: MessageKey) {
    match k
    case Reminder(fields) => !EndsInReplay(fields.version)
    case Response(_, _, _) => true
    case Replay(original, at) => Plain(original) && at.micro == 0
  }

  function Depth(k: MessageKey): nat {
    if k.Replay? then Depth(k.original) + 1 else 0
  }

  function Base(k: MessageKey): MessageKey {
    if k.Replay? then Base(k.original) else k
  }

  // The colons of a key tell how often it was replayed, up to those of its version.
  lemma {:induction false} ColonsOfText(k: MessageKey)
    ensures Colons(Text(k)) == 2 * Depth(k) + if Base(k).Reminder? then 6 + Colons(Base(k).fields.version) else 5
  {
    match k
    case Reminder(f) =>
      KeyIsJoin(f);
      var p := ReminderParts(f);
      forall i | 0 <= i < 6 ensures Colons(p[i]) == 0 {
        NoColons(p[i]);
      }
      ColonsOfJoin(p);
    case Response(school, guardian, at) =>
      ResponseIsJoin(k);
      ColonsOfStamp(at);
      var p := ResponseParts(k);
      forall i | 0 <= i < 3 ensures Colons(p[i]) == 0 {
        NoColons(p[i]);
      }
      ColonsOfJoin(p);
    case Replay(original, at) =>
      ColonsOfText(original);
      ColonsConcat(Text(original), ReplaySuffix(at));
      ColonsOfReplaySuffix(at);
  }

  lemma ColonsOfReplaySuffix(at: Stamp)
    ensures Colons(ReplaySuffix(at)) == 2
  {
    NoColons(CompactText(at));
    NoColons("");
    OneColon("", "replay");
    OneColon("" + ":" + "replay", CompactText(at));
    assert ReplaySuffix(at) == "" + ":" + "replay" + ":" + CompactText(at);
  }

  lemma OneColon(a: string, b: string)
    requires ':' !in b
    ensures Colons(a + ":" + b) == Colons(a) + 1
  {
    ColonsConcat(a + ":", b);
    ColonsConcat(a, ":");
    NoColons(b);
    assert ":"[1..] == "";
  }

  lemma ColonsOfStamp(t: Stamp)
    ensures Colons(StampText(t)) == 2
  {
    var upToHour, minute := DateText(t.date) + "T" + Padded(t.hour, 2), Padded(t.minute, 2);
    NumbersHaveNoColon(0, t.date, Due14);
    NoColons(upToHour);
    OneColon(upToHour, minute);
    OneColon(upToHour + ":" + minute, Padded(t.second, 2));
    var fraction := if t.micro == 0 then "" else "." + Padded(t.micro, 6);
    NoColons(fraction);
    ColonsConcat(SecondsText(t), fraction);
  }

  function ResponseParts(k: MessageKey): seq<string>
    requires k.Response?
  {
    [IntText(k.school), IntText(k.guardian), "response", StampText(k.at)]
  }

  lemma ResponseIsJoin(k: MessageKey)
    requires k.Response?
    ensures Text(k) == Join(ResponseParts(k)) && forall i :: 0 <= i < 3 ==> ':' !in ResponseParts(k)[i]
  {
    var p := ResponseParts(k);
    NumbersHaveNoColon(k.school, DateParts(1, 1, 1), Due14);
    NumbersHaveNoColon(k.guardian, DateParts(1, 1, 1), Due14);
    assert p[1..][1..] == p[2..] && p[2..][1..] == p[3..] && Join(p[3..]) == p[3];
    assert Join(p[2..]) == p[2] + ":" + p[3];
    assert Join(p[1..]) == p[1] + ":" + Join(p[2..]);
  }

  // Cut at its first three colons, a reply's key gives its school, its guardian, the word "response" and its instant.
  lemma ReplyCanBeRead(k: MessageKey)
    requires k.Response?
    ensures var p := Split(Text(k), 3);
            && |p| == 4 && ParseInt(p[0]) == k.school && ParseInt(p[1]) == k.guardian && p[2] == "response"
            && p[3] == StampText(k.at)
  {
    ResponseIsJoin(k);
    SplitUndoesJoin(ResponseParts(k));
    IntTextParses(k.school);
    IntTextParses(k.guardian);
  }

  // A replay's key is the key it replays, the word "replay" between colons, and the fourteen digits of its instant.
  lemma ReplayCanBeRead(k: MessageKey)
    requires k.Replay?
    ensures var n := |Text(k)| - 22;
            && n >= 0 && Text(k)[..n] == Text(k.original) && Text(k)[n..n + 8] == ":replay:"
            && Text(k)[n + 8..] == CompactText(k.at)
  {}

  // ---- which keys can be mistaken for each other ----

  lemma ReplayFields(k: MessageKey)
    requires k.Replay?
    ensures var n := |Text(k)| - 22;
            n >= 0 && Text(k)[..n] == Text(k.original) && Text(k)[n..] == ReplaySuffix(k.at)
  {}

  lemma ReplayEndsInDigits(k: MessageKey, back: nat)
    requires k.Replay? && 1 <= back <= 14
    ensures |Text(k)| > back && IsDigit(Text(k)[|Text(k)| - back])
  {
    assert ReplaySuffix(k.at)[22 - back] == CompactText(k.at)[14 - back];
  }

  // A reply names itself in its third field, where every other key has a number.
  lemma ReplyIsNoReminder(k: MessageKey, a: string, b: string, n: int, rest: string)
    requires k.Response? && ':' !in a && ':' !in b
    ensures Text(k) != a + ":" + (b + ":" + (IntText(n) + ":" + rest))
  {
    NumbersHaveNoColon(k.school, DateParts(1, 1, 1), Due14);
    NumbersHaveNoColon(k.guardian, DateParts(1, 1, 1), Due14);
    NumbersHaveNoColon(n, DateParts(1, 1, 1), Due14);
    ThirdField(IntText(k.school), IntText(k.guardian), "response", StampText(k.at));
    ThirdField(a, b, IntText(n), rest);
    assert IntText(n)[0] == '-' || IsDigit(IntText(n)[0]);
    assert [a, b, IntText(n), rest][2] == IntText(n);
    assert [IntText(k.school), IntText(k.guardian), "response", StampText(k.at)][2] == "response";
  }

  lemma ReplyIsNoReplay(k: MessageKey, l: MessageKey)
    requires k.Response? && l.Replay?
    ensures Text(k) != Text(l)
  {
    ResponseIsJoin(k);
    JoinLast(ResponseParts(k)[..3], StampText(k.at));
    assert ResponseParts(k) == ResponseParts(k)[..3] + [StampText(k.at)];
    StampFields(k.at);
    var t, back := Text(k), if k.at.micro == 0 then 3 else 7;
    ReplayEndsInDigits(l, back);
    assert t[|t| - back] == StampText(k.at)[|StampText(k.at)| - back];
    assert !IsDigit(StampText(k.at)[|StampText(k.at)| - back]);
  }

  // A reminder's key without its version.
  function Head(f: ReminderFields): string {
    Join(ReminderParts(f)[..6])
  }

  lemma HeadAndVersion(f: ReminderFields)
    ensures ComputeMessageKey(f) == Head(f) + ":" + f.version
    ensures |Head(f)| > 10 && Head(f)[|Head(f)| - 10..] == DateText(f.dueDate) && Colons(Head(f)) == 5
  {
    KeyIsJoin(f);
    var p := ReminderParts(f);
    assert p == p[..6] + [f.version] && p[..6] == p[..5] + [DateText(f.dueDate)];
    JoinLast(p[..6], f.version);
    JoinLast(p[..5], DateText(f.dueDate));
    forall i | 0 <= i < 6 ensures Colons(p[..6][i]) == 0 {
      NoColons(p[i]);
    }
    ColonsOfJoin(p[..6]);
  }

  lemma HeadFields(f: ReminderFields)
    ensures Head(f) == IntText(f.school) + ":" + (IntText(f.student) + ":" + (IntText(f.guardian) + ":"
                       + Join(ReminderParts(f)[3..6])))
  {
    var p := ReminderParts(f)[..6];
    assert p[1..][1..] == p[2..] && p[2..][1..] == p[3..] == ReminderParts(f)[3..6];
    assert Join(p[2..]) == p[2] + ":" + Join(p[3..]);
    assert Join(p[1..]) == p[1] + ":" + Join(p[2..]);
  }

  lemma HeadIsNoKey(f: ReminderFields, k: MessageKey)
    ensures Text(k) != Head(f)
  {
    HeadAndVersion(f);
    match k
    case Reminder(g) => ColonsOfText(k);
    case Response(_, _, _) =>
      HeadFields(f);
      NumbersHaveNoColon(f.school, f.dueDate, f.kind);
      NumbersHaveNoColon(f.student, f.dueDate, f.kind);
      ReplyIsNoReminder(k, IntText(f.school), IntText(f.student), f.guardian, Join(ReminderParts(f)[3..6]));
    case Replay(_, at) =>
      ReplayEndsInDigits(k, 3);
      assert Head(f)[|Head(f)| - 3] == DateText(f.dueDate)[7] == '-';
  }

  lemma BeforeTheColon(h: string, v: string, o: string, s: string)
    requires h + ":" + v == o + s && |v| < 22 == |s| && h != ""
    ensures |v| <= 20 ==> h[|h| - 1] == s[20 - |v|]
  {
    assert (h + ":" + v)[|h| - 1] == h[|h| - 1];
  }

  // Where the last colon before a version can fall in a replay's suffix.
  lemma SuffixMeetsHead(h: string, v: string, o: string, s: string)
    requires h + ":" + v == o + s && |v| < 22 == |s| && h != ""
    requires s[6] == 'y' != h[|h| - 1] && (forall i :: 0 <= i < 22 && s[i] == ':' ==> i == 0 || i == 7)
    ensures o == h
  {
    var t := h + ":" + v;
    BeforeTheColon(h, v, o, s);
    assert t[|h|] == (o + s)[|h|] == s[21 - |v|];
    if |v| == 21 {
      assert t[..|h|] == h && (o + s)[..|o|] == o;
    }
  }

  // A replay's key is a reminder's key only if the replay's suffix lies within the reminder's version.
  lemma ReplaySuffixIsInVersion(k: MessageKey, g: ReminderFields)
    requires k.Replay? && Text(k) == ComputeMessageKey(g)
    ensures |g.version| >= 22 && g.version[|g.version| - 22..] == ReplaySuffix(k.at)
  {
    if |g.version| < 22 {
      HeadAndVersion(g);
      SuffixLetters(k.at);
      HeadEndsInDigit(g);
      SuffixMeetsHead(Head(g), g.version, Text(k.original), ReplaySuffix(k.at));
      HeadIsNoKey(g, k.original);
    } else {
      HeadAndVersion(g);
      SameEnd(Head(g) + ":", g.version, Text(k.original), ReplaySuffix(k.at));
    }
  }

  lemma SuffixLetters(at: Stamp)
    ensures ReplaySuffix(at)[6] == 'y'
    ensures forall i :: 0 <= i < 22 && ReplaySuffix(at)[i] == ':' ==> i == 0 || i == 7
  {
    assert forall i :: 8 <= i < 22 ==> ReplaySuffix(at)[i] == CompactText(at)[i - 8];
  }

  lemma HeadEndsInDigit(f: ReminderFields)
    ensures Head(f) != "" && IsDigit(Head(f)[|Head(f)| - 1])
  {
    HeadAndVersion(f);
    assert Head(f)[|Head(f)| - 1] == DateText(f.dueDate)[9];
  }

  lemma SameEnd(a: string, b: string, c: string, d: string)
    requires a + b == c + d && |d| <= |b|
    ensures b[|b| - |d|..] == d
  {
    assert (a + b)[|a + b| - |d|..] == b[|b| - |d|..] && (c + d)[|c + d| - |d|..] == d;
  }

  // Keys of every kind, replays of replays included, are equal only when they name the same message.
  lemma {:induction false} KeysNeverCollide(k: MessageKey, l: MessageKey)
    requires Plain(k) && Plain(l)
    ensures Text(k) == Text(l) <==> k == l
    decreases k
  {
    if Text(k) == Text(l) {
      match (k, l)
      case (Reminder(f), Reminder(g)) => ReminderKeysEqualIff(f, g);
      case (Response(_, _, _), Response(_, _, _)) => RepliesDiffer(k, l);
      case (Replay(original, at), Replay(original', at')) =>
        ReplayFields(k);
        ReplayFields(l);
        KeysNeverCollide(original, original');
        SuffixesDiffer(at, at');
      case (Reminder(f), Replay(_, _)) => PlainIsNoReplay(f, l);
      case (Replay(_, _), Reminder(f)) => PlainIsNoReplay(f, k);
      case (Reminder(f), Response(_, _, _)) => ReplyIsNotThisReminder(l, f);
      case (Response(_, _, _), Reminder(f)) => ReplyIsNotThisReminder(k, f);
      case (Response(_, _, _), Replay(_, _)) => ReplyIsNoReplay(k, l);
      case (Replay(_, _), Response(_, _, _)) => ReplyIsNoReplay(l, k);
    }
  }

  lemma ReplyIsNotThisReminder(k: MessageKey, f: ReminderFields)
    requires k.Response?
    ensures Text(k) != ComputeMessageKey(f)
  {
    NumbersHaveNoColon(f.school, f.dueDate, f.kind);
    NumbersHaveNoColon(f.student, f.dueDate, f.kind);
    ReplyIsNoReminder(k, IntText(f.school), IntText(f.student), f.guardian,
      IntText(f.invoice) + ":" + (KindText(f.kind) + ":" + (DateText(f.dueDate) + ":" + f.version)));
  }

  lemma PlainIsNoReplay(f: ReminderFields, l: MessageKey)
    requires l.Replay? && Text(l) == ComputeMessageKey(f)
    ensures EndsInReplay(f.version)
  {
    ReplaySuffixIsInVersion(l, f);
    var n := |f.version| - 22;
    assert f.version == f.version[..n] + ReplaySuffix(l.at);
  }

  lemma RepliesDiffer(k: MessageKey, l: MessageKey)
    requires k.Response? && l.Response? && Text(k) == Text(l)
    ensures k == l
  {
    ResponseIsJoin(k);
    ResponseIsJoin(l);
    var p, q := ResponseParts(k), ResponseParts(l);
    SplitUndoesJoin(p);
    SplitUndoesJoin(q);
    assert p[0] == q[0] && p[1] == q[1] && p[3] == q[3];
    IntTextParses(k.school);
    IntTextParses(l.school);
    IntTextParses(k.guardian);
    IntTextParses(l.guardian);
    StampTextInjective(k.at, l.at);
  }

  lemma SuffixesDiffer(at: Stamp, at': Stamp)
    requires ReplaySuffix(at) == ReplaySuffix(at')
    ensures at.(micro := 0) == at'.(micro := 0)
  {
    assert ReplaySuffix(at)[8..] == CompactText(at) && ReplaySuffix(at')[8..] == CompactText(at');
    CompactTextInjective(at, at');
  }

  // A version that ends as a replay key does makes its reminder's key the key of another reminder's replay.
  lemma ReplayVersionCollides(g: ReminderFields, w: string, at: Stamp)
    requires g.version == w + ReplaySuffix(at)
    ensures Text(Reminder(g)) == Text(Replay(Reminder(g.(version := w)), at))
  {
    var f := g.(version := w);
    HeadAndVersion(g);
    HeadAndVersion(f);
    assert ReminderParts(f)[..6] == ReminderParts(g)[..6];
    Associates(Head(g) + ":", w, ReplaySuffix(at));
  }

  ghost predicate KeyIsTaken(g: ReminderFields) {
    exists k: MessageKey :: Text(k) == ComputeMessageKey(g) && k != Reminder(g)
  }

  // A reminder's key is also some other message's key exactly when its version ends as a replay key does; a colon alone
  // does no harm.
  lemma ReminderKeyIsTakenIff(g: ReminderFields)
    ensures KeyIsTaken(g) <==> EndsInReplay(g.version)
  {
    if KeyIsTaken(g) {
      var k: MessageKey :| Text(k) == ComputeMessageKey(g) && k != Reminder(g);
      match k
      case Reminder(f) => ReminderKeysEqualIff(f, g);
      case Response(_, _, _) => ReplyIsNotThisReminder(k, g);
      case Replay(_, _) => PlainIsNoReplay(g, k);
    }
    if EndsInReplay(g.version) {
      var w: string, at: Stamp :| g.version == w + ReplaySuffix(at);
      ReplayVersionCollides(g, w, at);
      assert Text(Replay(Reminder(g.(version := w)), at)) == ComputeMessageKey(g);
    }
  }

  lemma Associates(a: string, b: string, c: string)
    ensures (a + b) + c == a + (b + c)
  {}

  lemma ShortVersionIsPlain(version: string)
    requires |version| < 22
    ensures !EndsInReplay(version)
  {}
}
