/**
 * Gitter messages (the `Message` class): parsing the records of a room's
 * message list, the one-day recency test, and the line shown in WeeChat.
 */
module Messages {
  import opened Wrappers
  import opened Strings

  /**
   * The time a message was sent, as `DateTime.parse` leaves it: the instant,
   * in whole seconds, that `show?` compares, and the calendar fields in the
   * message's own offset that `strftime` renders.
   */
  datatype DateTime = DateTime(instant: int, year: int, month: int, day: int, hour: int, minute: int, second: int)

  predicate WellFormed(t: DateTime)
  {
    && 1 <= t.month <= 12 && 1 <= t.day <= 31
    && 0 <= t.hour < 24 && 0 <= t.minute < 60 && 0 <= t.second < 60
  }

  type Timestamp = t: DateTime | WellFormed(t) witness DateTime(0, 1970, 1, 1, 0, 0, 0)

  /** One day, the length of the recency window, in seconds. */
  const Day: int := 86400

  /**
   * One element of a room's message list: `text`, `sent` (None when missing
   * or not a date) and `fromUser.username` (None when `fromUser` is missing).
   */
  datatype MessageRecord = MessageRecord(text: string, sent: Option<Timestamp>, fromUser: Option<string>)

  datatype Message = Message(text: string, sentAt: Timestamp, username: string)

  /** Ruby raises on a record without a sender or without a parseable date. */
  datatype MessageError = MissingUser | BadDate

  /**
   * `Message.new` on one record. The sender is read while the arguments are
   * evaluated, before the date is parsed, so a missing sender wins.
   */
  function ParseOne(rec: MessageRecord): (r: Result<Message, MessageError>)
    ensures r.Success? <==> rec.fromUser.Some? && rec.sent.Some?
    ensures r.Success? ==> r.value == Message(rec.text, rec.sent.value, rec.fromUser.value)
    ensures rec.fromUser.None? ==> r == Failure(MissingUser)
  {
    match rec.fromUser
    case None => Failure(MissingUser)
    case Some(user) =>
      match rec.sent
      case None => Failure(BadDate)
      case Some(t) => Success(Message(rec.text, t, user))
  }

  /**
   * `Message.parse`: every record, in order; the first record that fails
   * fails the whole list.
   */
  function Parse(recs: seq<MessageRecord>): (r: Result<seq<Message>, MessageError>)
    ensures r.Success? <==> forall i :: 0 <= i < |recs| ==> ParseOne(recs[i]).Success?
    ensures r.Success? ==>
      |r.value| == |recs| && forall i :: 0 <= i < |recs| ==> ParseOne(recs[i]) == Success(r.value[i])
    ensures r.Failure? ==>
      exists i :: 0 <= i < |recs| && ParseOne(recs[i]) == Failure(r.error)
                  && forall j :: 0 <= j < i ==> ParseOne(recs[j]).Success?
  {
    if recs == [] then Success([])
    else
      match ParseOne(recs[0])
      case Failure(e) => Failure(e)
      case Success(m) =>
        match Parse(recs[1..])
        case Failure(e) =>
          // The failing record of the tail, one position further on.
          var k :| 0 <= k < |recs[1..]| && ParseOne(recs[1..][k]) == Failure(e)
            && forall j :: 0 <= j < k ==> ParseOne(recs[1..][j]).Success?;
          assert ParseOne(recs[k + 1]) == Failure(e);
          Failure(e)
        case Success(ms) => Success([m] + ms)
  }

  /** `show?`: sent no earlier than one day before `now`. */
  predicate Show(m: Message, now: int)
    ensures Show(m, now) <==> now - m.sentAt.instant <= Day
  {
    m.sentAt.instant >= now - Day
  }

  /** The window is closed: a message exactly one day old is still shown, a second older is not. */
  lemma ShowBoundary(m: Message)
    ensures Show(m, m.sentAt.instant + Day)
    ensures !Show(m, m.sentAt.instant + Day + 1)
  {
  }

  /** A message shown now was shown at every earlier moment too. */
  lemma ShowAntitone(m: Message, earlier: int, now: int)
    requires earlier <= now && Show(m, now)
    ensures Show(m, earlier)
  {
  }

  /** `messages.select(&:show?)`. */
  function Recent(ms: seq<Message>, now: int): (r: seq<Message>)
    ensures |r| <= |ms|
    ensures forall i :: 0 <= i < |r| ==> r[i] in ms && Show(r[i], now)
  {
    if ms == [] then []
    else (if Show(ms[0], now) then [ms[0]] else []) + Recent(ms[1..], now)
  }

  /** The selection keeps exactly the shown messages. */
  lemma {:induction false} RecentMembers(ms: seq<Message>, now: int, m: Message)
    ensures m in Recent(ms, now) <==> m in ms && Show(m, now)
  {
    if ms != [] {
      RecentMembers(ms[1..], now, m);
      assert ms == [ms[0]] + ms[1..];
    }
  }

  /**
   * The selection works piece by piece and keeps the order: selecting from
   * two lists joined is joining their selections.
   */
  lemma {:induction false} RecentAppend(a: seq<Message>, b: seq<Message>, now: int)
    ensures Recent(a + b, now) == Recent(a, now) + Recent(b, now)
  {
    if a == [] {
      assert a + b == b;
    } else {
      var ab := a + b;
      var head := if Show(a[0], now) then [a[0]] else [];
      assert ab[0] == a[0];
      assert ab[1..] == a[1..] + b;
      RecentAppend(a[1..], b, now);
      calc {
        Recent(ab, now);
        head + Recent(a[1..] + b, now);
        head + (Recent(a[1..], now) + Recent(b, now));
        (head + Recent(a[1..], now)) + Recent(b, now);
      }
    }
  }

  /** With every message recent nothing is dropped; with none recent, everything is. */
  lemma {:induction false} RecentAllOrNone(ms: seq<Message>, now: int)
    ensures (forall i :: 0 <= i < |ms| ==> Show(ms[i], now)) ==> Recent(ms, now) == ms
    ensures (forall i :: 0 <= i < |ms| ==> !Show(ms[i], now)) <==> Recent(ms, now) == []
  {
    if ms != [] {
      var tail := ms[1..];
      RecentAllOrNone(tail, now);
      var head := if Show(ms[0], now) then [ms[0]] else [];
      assert Recent(ms, now) == head + Recent(tail, now);
      assert forall i :: 0 <= i < |tail| ==> tail[i] == ms[i + 1];
      if Recent(ms, now) == [] {
        assert head == [];
      }
    }
  }

  predicate IsDigit(c: char)
  {
    '0' <= c <= '9'
  }

  function DigitValue(c: char): int
  {
    c as int - '0' as int
  }

  function Digit(n: nat): (c: char)
    requires n < 10
    ensures IsDigit(c) && DigitValue(c) == n
  {
    ('0' as int + n) as char
  }

  /** `%y`, `%m`, …: a number below 100 as two digits, zero-padded. */
  function Pad2(n: nat): (r: string)
    requires n < 100
    ensures |r| == 2 && IsDigit(r[0]) && IsDigit(r[1])
    ensures DigitValue(r[0]) * 10 + DigitValue(r[1]) == n
  {
    [Digit(n / 10), Digit(n % 10)]
  }

  /** The fields `[%y-%m-%d %H:%M:%S]` shows; the year is cut to its last two digits. */
  datatype StampFields = StampFields(yy: int, month: int, day: int, hour: int, minute: int, second: int)

  function FieldsOf(t: Timestamp): StampFields
  {
    StampFields(t.year % 100, t.month, t.day, t.hour, t.minute, t.second)
  }

  /** `strftime('[%y-%m-%d %H:%M:%S]')`. */
  function Stamp(t: Timestamp): (s: string)
    ensures |s| == 19
    ensures s[0] == '[' && s[3] == '-' && s[6] == '-' && s[9] == ' ' && s[12] == ':' && s[15] == ':' && s[18] == ']'
    ensures IsDigit(s[1]) && IsDigit(s[2]) && IsDigit(s[4]) && IsDigit(s[5]) && IsDigit(s[7]) && IsDigit(s[8])
    ensures IsDigit(s[10]) && IsDigit(s[11]) && IsDigit(s[13]) && IsDigit(s[14]) && IsDigit(s[16]) && IsDigit(s[17])
  {
    var y, mo, d := Pad2(t.year % 100), Pad2(t.month), Pad2(t.day);
    var h, mi, se := Pad2(t.hour), Pad2(t.minute), Pad2(t.second);
    ['[', y[0], y[1], '-', mo[0], mo[1], '-', d[0], d[1],
     ' ', h[0], h[1], ':', mi[0], mi[1], ':', se[0], se[1], ']']
  }

  /** `text`: the sender, a tab, the time stamp, a space and the message. */
  function Line(m: Message): (line: string)
    ensures |line| == |m.username| + |m.text| + 21
    ensures line[..|m.username|] == m.username && line[|m.username|] == '\t'
    ensures line[|m.username| + 1..|m.username| + 20] == Stamp(m.sentAt)
    ensures line[|m.username| + 20] == ' ' && line[|m.username| + 21..] == m.text
  {
    m.username + "\t" + Stamp(m.sentAt) + " " + m.text
  }

  function Read2(hi: char, lo: char): int
  {
    DigitValue(hi) * 10 + DigitValue(lo)
  }

  /** Reads a time stamp of the `[yy-mm-dd HH:MM:SS]` layout back into its fields. */
  function ReadStamp(s: string): Option<StampFields>
  {
    if |s| == 19 && s[0] == '[' && s[3] == '-' && s[6] == '-' && s[9] == ' '
       && s[12] == ':' && s[15] == ':' && s[18] == ']'
       && IsDigit(s[1]) && IsDigit(s[2]) && IsDigit(s[4]) && IsDigit(s[5])
       && IsDigit(s[7]) && IsDigit(s[8]) && IsDigit(s[10]) && IsDigit(s[11])
       && IsDigit(s[13]) && IsDigit(s[14]) && IsDigit(s[16]) && IsDigit(s[17])
    then Some(StampFields(Read2(s[1], s[2]), Read2(s[4], s[5]), Read2(s[7], s[8]),
                          Read2(s[10], s[11]), Read2(s[13], s[14]), Read2(s[16], s[17])))
    else None
  }

  /** The time stamp can be read back: it shows every field, two digits each. */
  lemma StampRoundTrip(t: Timestamp)
    ensures ReadStamp(Stamp(t)) == Some(FieldsOf(t))
  {
  }

  /** A shown line split into sender, time stamp fields and message text. */
  datatype LineParts = LineParts(username: string, fields: StampFields, text: string)

  /** Reads a shown line back, splitting at its first tab. */
  function ReadLine(line: string): Option<LineParts>
  {
    match IndexOf(line, '\t')
    case None => None
    case Some(tab) =>
      var rest := line[tab + 1..];
      if |rest| >= 20 && rest[19] == ' ' then
        match ReadStamp(rest[..19])
        case None => None
        case Some(f) => Some(LineParts(line[..tab], f, rest[20..]))
      else None
  }

  /**
   * A shown line gives back its sender, every field of its time stamp and
   * its text, whenever the sender has no tab in it.
   */
  lemma LineRoundTrip(m: Message)
    requires '\t' !in m.username
    ensures ReadLine(Line(m)) == Some(LineParts(m.username, FieldsOf(m.sentAt), m.text))
  {
    var line, u := Line(m), m.username;
    assert line[..|u|] == u;
    assert line[|u|] == '\t';
    assert IndexOf(line, '\t') == Some(|u|);
    var rest := line[|u| + 1..];
    assert rest == Stamp(m.sentAt) + " " + m.text;
    assert rest[..19] == Stamp(m.sentAt);
    StampRoundTrip(m.sentAt);
  }
}
