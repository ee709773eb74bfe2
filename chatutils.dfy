/** The chat client's helpers (`ChatSystem/src/utils.ts`): the WebSocket address derived from the
    page location and the `HH:MM` label of a message. */
module ChatUtils {
  import opened Base
  import opened Text

  const DefaultUrl: string := "ws://localhost:8080"
  const Scheme: string := "ws://"
  const PortSuffix: string := ":8080"

  /** What reading `location.hostname` gives: no `location` (or an empty / missing hostname
      is `Host("")`), an accessor that throws, or a hostname. */
  datatype Location = NoLocation | Throws | Host(hostname: string)

  /** The regular expression `^(\d{1,3}\.){3}\d{1,3}$`: `groups` dot-separated groups of one to
      three ASCII digits. A digit group can only end at a dot or at the end of the string, so
      the group is exactly the run of digits found there. */
  predicate DottedDigits(s: string, groups: nat)
    decreases groups
  {
    var k := DigitRun(s);
    if groups <= 1 then groups == 1 && 1 <= k <= 3 && k == |s|
    else 1 <= k <= 3 && k < |s| && s[k] == '.' && DottedDigits(s[k + 1..], groups - 1)
  }

  predicate IpPattern(hostname: string) {
    DottedDigits(hostname, 4)
  }

  /** `createWebSocketUrl`, with the page location passed in. */
  function CreateWebSocketUrl(loc: Location): (url: string)
    ensures StartsWith(url, Scheme) && EndsWith(url, PortSuffix)
  {
    match loc
    case NoLocation => DefaultUrl
    case Throws => DefaultUrl
    case Host(h) =>
      if h == [] then DefaultUrl
      else if h == "localhost" || h == "127.0.0.1" then DefaultUrl
      else if IpPattern(h) then Scheme + h + PortSuffix
      else Scheme + h + PortSuffix
  }

  /** The two loopback names both lead to the local server. */
  lemma LoopbackUrl(h: string)
    requires h == "localhost" || h == "127.0.0.1"
    ensures CreateWebSocketUrl(Host(h)) == "ws://localhost:8080"
  {
  }

  /** Any other non-empty hostname is used as is, IP address or domain name alike: the result
      does not depend on the IP-address test. */
  lemma HostUrl(h: string)
    requires h != [] && h != "localhost" && h != "127.0.0.1"
    ensures CreateWebSocketUrl(Host(h)) == "ws://" + h + ":8080"
  {
  }

  /** No location, an empty hostname or a throwing accessor falls back to the local server. */
  lemma FallbackUrl(loc: Location)
    requires loc.NoLocation? || loc.Throws? || loc == Host([])
    ensures CreateWebSocketUrl(loc) == "ws://localhost:8080"
  {
  }

  /** The address names the host it was built from: the text between the scheme and the port. */
  lemma UrlNamesHost(h: string)
    requires h != [] && h != "localhost" && h != "127.0.0.1"
    ensures var url := CreateWebSocketUrl(Host(h));
      url[|Scheme|..|url| - |PortSuffix|] == h
  {
    var url := CreateWebSocketUrl(Host(h));
    assert url == Scheme + h + PortSuffix;
  }

  /** `String(n).padStart(2, "0")`. */
  function TwoDigits(n: nat): (r: string)
    ensures n < 100 ==> |r| == 2 && AllDigits(r)
  {
    var s := NatToString(n);
    assert 10 <= n < 100 ==> |NatToString(n / 10)| == 1;
    var r := PadStart(s, 2, '0');
    assert n < 10 ==> r == ['0'] + s;
    r
  }

  /** `formatTimeLabel`, with the hours and minutes of the local clock passed in. */
  function FormatTimeLabel(hours: nat, minutes: nat): (r: string)
    ensures hours < 100 && minutes < 100 ==>
      |r| == 5 && r[2] == ':' && AllDigits(r[..2]) && AllDigits(r[3..])
  {
    var r := TwoDigits(hours) + ":" + TwoDigits(minutes);
    assert hours < 100 && minutes < 100 ==> r[..2] == TwoDigits(hours) && r[3..] == TwoDigits(minutes);
    r
  }

  lemma TwoDigitsValue(n: nat)
    requires n < 100
    ensures DigitsValue(TwoDigits(n)) == n
  {
    var s := NatToString(n);
    NatToStringValue(n);
    if n < 10 {
      assert TwoDigits(n) == ['0'] + s;
      assert (['0'] + s)[..1] == ['0'];
      assert DigitsValue(['0']) == 0;
    } else {
      assert |NatToString(n / 10)| == 1;
      assert TwoDigits(n) == s;
    }
  }

  /** The label is read back as the hours and minutes it shows, so different clock readings
      get different labels. */
  lemma TimeLabelRoundTrip(hours: nat, minutes: nat)
    requires hours < 24 && minutes < 60
    ensures var r := FormatTimeLabel(hours, minutes);
      DigitsValue(r[..2]) == hours && DigitsValue(r[3..]) == minutes
  {
    var r := FormatTimeLabel(hours, minutes);
    assert r[..2] == TwoDigits(hours) && r[3..] == TwoDigits(minutes);
    TwoDigitsValue(hours);
    TwoDigitsValue(minutes);
  }
}
