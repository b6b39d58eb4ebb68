/** The argument validators and actions of hotelcheck.py (lines 15, 54-100).
    strptime and float() are supplied as functions; argparse itself is not
    modelled, only what each type function and action does with its input. */
module Arguments {
  import opened Wrappers
  import opened Errors
  import Classifier

  /** A calendar date as strptime returns it. */
  datatype Date = Date(year: int, month: int, day: int)

  const FirstDay := Date(2020, 7, 25)
  const LastDay := Date(2020, 8, 4)

  /** datetime's ordering: year, then month, then day. */
  predicate DateLe(a: Date, b: Date) {
    a.year < b.year ||
    (a.year == b.year && (a.month < b.month || (a.month == b.month && a.day <= b.day)))
  }

  predicate InWindow(d: Date) {
    DateLe(FirstDay, d) && DateLe(d, LastDay)
  }

  /** Dates strptime can return for '%Y-%m-%d'. */
  predicate ValidDate(d: Date) {
    1 <= d.year && 1 <= d.month <= 12 && 1 <= d.day <= DaysIn(d.year, d.month)
  }

  function DaysIn(year: int, month: int): int
    requires 1 <= month <= 12
  {
    if month == 2 then (if (year % 4 == 0 && year % 100 != 0) || year % 400 == 0 then 29 else 28)
    else if month == 4 || month == 6 || month == 9 || month == 11 then 30
    else 31
  }

  /** type_day: the argument itself when it parses to a date inside the
      housing window, and the matching ArgumentTypeError otherwise. */
  function TypeDay(arg: string, strptime: string -> Option<Date>): (r: Result<string, Error>)
    ensures r.Ok? <==> strptime(arg).Some? && InWindow(strptime(arg).value)
    ensures r.Ok? ==> r.value == arg
    ensures r.Err? ==> r.error == if strptime(arg).None? then NotADate(arg) else OutsideWindow(arg)
  {
    match strptime(arg)
    case None => Err(NotADate(arg))
    case Some(d) => if !(DateLe(FirstDay, d) && DateLe(d, LastDay)) then Err(OutsideWindow(arg)) else Ok(arg)
  }

  /** The window holds exactly the eleven days from July 25 to August 4, 2020. */
  lemma WindowDays(d: Date)
    requires ValidDate(d)
    ensures InWindow(d) <==>
            d.year == 2020 && ((d.month == 7 && 25 <= d.day) || (d.month == 8 && d.day <= 4))
  {
  }

  /** type_distance: 'connected' as it is, otherwise float(arg). */
  function TypeDistance(arg: string, parseFloat: string -> Option<real>): (r: Result<Classifier.MaxDistance, Error>)
    ensures r == Ok(Classifier.Connected) <==> arg == "connected"
    ensures r.Err? <==> arg != "connected" && parseFloat(arg).None?
    ensures r.Err? ==> r.error == InvalidFloat(arg)
    ensures r.Ok? && arg != "connected" ==> r.value == Classifier.Within(parseFloat(arg).value)
  {
    if arg == "connected" then Ok(Classifier.Connected)
    else match parseFloat(arg)
      case None => Err(InvalidFloat(arg))
      case Some(x) => Ok(Classifier.Within(x))
  }

  // The pattern ^https://book.passkey.com/reg/([0-9A-Z]{8}-[0-9A-Z]{4})/([0-9a-f]{1,64})$
  // used with re.match and no flags. Its two unescaped dots match any
  // character but a newline, and $ also matches before one final newline.

  const UrlHead := "https://book"
  const UrlMiddle := "passkey"
  const UrlPath := "com/reg/"

  /** What an unescaped `.` matches. */
  predicate AnyButNewline(c: char) {
    c != '\n'
  }

  predicate KeyChar(c: char) {
    '0' <= c <= '9' || 'A' <= c <= 'Z'
  }

  predicate HexChar(c: char) {
    '0' <= c <= '9' || 'a' <= c <= 'f'
  }

  /** [0-9A-Z]{8}-[0-9A-Z]{4} */
  predicate IsKey(k: string) {
    |k| == 13 && k[8] == '-' &&
    forall i :: 0 <= i < 13 && i != 8 ==> KeyChar(k[i])
  }

  /** [0-9a-f]{1,64} */
  predicate IsAuth(a: string) {
    1 <= |a| <= 64 && forall i :: 0 <= i < |a| ==> HexChar(a[i])
  }

  /** m.groups() when the pattern matches. */
  function MatchPasskeyUrl(s: string): Option<(string, string)> {
    if |s| < 44 then None
    else if s[..12] != UrlHead || !AnyButNewline(s[12]) || s[13..20] != UrlMiddle ||
            !AnyButNewline(s[20]) || s[21..29] != UrlPath then None
    else if !IsKey(s[29..42]) || s[42] != '/' then None
    else
      var rest := s[43..];
      var auth := if rest[|rest| - 1] == '\n' then rest[..|rest| - 1] else rest;
      if IsAuth(auth) then Some((s[29..42], auth)) else None
  }

  /** The fixed 29 characters before the key, with the characters the two
      dots matched. */
  function UrlPrefix(dot1: char, dot2: char): string {
    UrlHead + [dot1] + UrlMiddle + [dot2] + UrlPath
  }

  /** A string the pattern describes, spelled out piece by piece. */
  function PasskeyUrl(dot1: char, dot2: char, key: string, auth: string, newline: bool): string {
    UrlPrefix(dot1, dot2) + key + "/" + auth + (if newline then "\n" else "")
  }

  lemma UrlPrefixParts(dot1: char, dot2: char)
    ensures var p := UrlPrefix(dot1, dot2);
            |p| == 29 && p[..12] == UrlHead && p[12] == dot1 && p[13..20] == UrlMiddle &&
            p[20] == dot2 && p[21..29] == UrlPath
  {
    var p := UrlPrefix(dot1, dot2);
    assert p == UrlHead + [dot1] + UrlMiddle + [dot2] + UrlPath;
    assert p[..12] == UrlHead;
    assert p[13..20] == UrlMiddle;
    assert p[21..29] == UrlPath;
  }

  lemma UrlPrefixOf(s: string)
    requires |s| >= 29 && s[..12] == UrlHead && s[13..20] == UrlMiddle && s[21..29] == UrlPath
    ensures s[..29] == UrlPrefix(s[12], s[20])
  {
    var p := UrlPrefix(s[12], s[20]);
    UrlPrefixParts(s[12], s[20]);
    assert s[..29] == s[..12] + [s[12]] + s[13..20] + [s[20]] + s[21..29];
    assert p == p[..12] + [p[12]] + p[13..20] + [p[20]] + p[21..29];
  }

  /** Every URL of the documented shape is accepted, and its groups are the
      key and the auth token. */
  lemma MatchAcceptsPasskeyUrls(dot1: char, dot2: char, key: string, auth: string, newline: bool)
    requires AnyButNewline(dot1) && AnyButNewline(dot2) && IsKey(key) && IsAuth(auth)
    ensures MatchPasskeyUrl(PasskeyUrl(dot1, dot2, key, auth, newline)) == Some((key, auth))
  {
    var p := UrlPrefix(dot1, dot2);
    UrlPrefixParts(dot1, dot2);
    var tail := if newline then "\n" else "";
    var rest := key + "/" + auth + tail;
    var s := PasskeyUrl(dot1, dot2, key, auth, newline);
    assert s == p + rest;
    assert s[..29] == p;
    assert s[..12] == p[..12] && s[13..20] == p[13..20] && s[21..29] == p[21..29];
    assert s[29..] == rest;
    assert rest[..13] == key && rest[13] == '/';
    assert s[29..42] == key && s[42] == '/';
    assert s[43..] == auth + tail;
    if newline {
      assert (auth + tail)[..|auth|] == auth;
    } else {
      assert auth + tail == auth;
      assert !HexChar('\n');
    }
  }

  /** Only URLs of the documented shape are accepted. */
  lemma MatchOnlyPasskeyUrls(s: string)
    requires MatchPasskeyUrl(s).Some?
    ensures var (key, auth) := MatchPasskeyUrl(s).value;
            IsKey(key) && IsAuth(auth) && AnyButNewline(s[12]) && AnyButNewline(s[20]) &&
            s == PasskeyUrl(s[12], s[20], key, auth, s[|s| - 1] == '\n')
  {
    var (key, auth) := MatchPasskeyUrl(s).value;
    UrlPrefixOf(s);
    var rest := s[43..];
    assert s == s[..29] + s[29..42] + [s[42]] + rest;
    if s[|s| - 1] == '\n' {
      assert rest == auth + "\n";
    } else {
      assert rest == auth;
    }
  }

  /** The entries of args.alerts. */
  datatype AlertSpec = Popup | Cmd(command: string) | Browser | Email(host: string, sender: string, recipient: string)

  /** The argparse namespace, reduced to the attributes the actions write. */
  class Namespace {
    var key: Option<(string, string)>
    var alerts: Option<seq<AlertSpec>>

    constructor ()
      ensures key == None && alerts == None
    {
      key := None;
      alerts := None;
    }

    /** PasskeyUrlAction: store the key and auth token of a passkey URL,
        reject anything else and leave the namespace alone. */
    method PasskeyUrlAction(values: string) returns (r: Result<(), Error>)
      modifies this`key
      ensures MatchPasskeyUrl(values).Some? ==> r.Ok? && key == MatchPasskeyUrl(values)
      ensures MatchPasskeyUrl(values).None? ==> r == Err(InvalidPasskeyUrl(values)) && key == old(key)
    {
      var m := MatchPasskeyUrl(values);
      if m.Some? {
        key := m;
        return Ok(());
      }
      return Err(InvalidPasskeyUrl(values));
    }

    /** EmailAction: create the alert list if there is none, then append
        ('email', HOST, FROM, TO). */
    method EmailAction(host: string, sender: string, recipient: string)
      modifies this`alerts
      ensures alerts == Some(old(alerts).GetOr([]) + [Email(host, sender, recipient)])
    {
      var dest := alerts;
      if dest.None? {
        dest := Some([]);
        alerts := dest;
      }
      alerts := Some(dest.value + [Email(host, sender, recipient)]);
    }
  }
}
