/** The sign-in e-mail of src/lib/verification-request.ts: the subject and
    plain-text body built from the link's host, the host as it is escaped
    for the HTML body, the colours taken from the theme, and the check on
    the recipients the mail server rejected or left pending. Sending the
    mail and the HTML markup around these values are outside the model. */
module VerificationRequest {
  import opened Strings

  /** What is inserted before every `.` of the host, so that mail clients
      do not turn the host into a link: a zero-width space entity. */
  const ZeroWidthSpace := "&#8203;"

  // ---------------------------------------------------------------------
  // Host escaping: `host.replace(/\./g, "&#8203;.")`

  function CountDots(s: string): nat {
    if s == [] then 0 else (if s[0] == '.' then 1 else 0) + CountDots(s[1..])
  }

  /** Every dot grows by the seven characters of the entity; nothing else
      changes length, and a host without dots is left as it is. */
  function EscapeHost(host: string): (r: string)
    ensures |r| == |host| + 7 * CountDots(host)
    ensures CountDots(host) == 0 ==> r == host
  {
    if host == [] then []
    else (if host[0] == '.' then ZeroWidthSpace + "." else [host[0]]) + EscapeHost(host[1..])
  }

  /** Deletes every `&#8203;` from `s`, scanning left to right. */
  function RemoveMarkers(s: string): string
    decreases |s|
  {
    if s == [] then []
    else if StartsWith(s, ZeroWidthSpace) then RemoveMarkers(s[|ZeroWidthSpace|..])
    else [s[0]] + RemoveMarkers(s[1..])
  }

  /** Deleting the inserted entities gives the host back, provided the host
      itself holds no `&` that could start a false entity. */
  lemma {:induction false} EscapeHostRoundTrip(host: string)
    requires '&' !in host
    ensures RemoveMarkers(EscapeHost(host)) == host
  {
    if host != [] {
      var rest := EscapeHost(host[1..]);
      EscapeHostRoundTrip(host[1..]);
      if host[0] == '.' {
        var e := ZeroWidthSpace + "." + rest;
        assert EscapeHost(host) == e;
        assert StartsWith(e, ZeroWidthSpace);
        assert e[|ZeroWidthSpace|..] == "." + rest;
        assert !StartsWith("." + rest, ZeroWidthSpace) by {
          assert ("." + rest)[0] != ZeroWidthSpace[0];
        }
        assert ("." + rest)[1..] == rest;
      } else {
        var e := [host[0]] + rest;
        assert EscapeHost(host) == e;
        assert !StartsWith(e, ZeroWidthSpace) by {
          assert e[0] == host[0] && host[0] != '&';
        }
        assert e[1..] == rest;
      }
    }
  }

  /** No dot of the escaped host is left bare: each one follows the entity. */
  lemma {:induction false} EscapedDotsFollowMarker(host: string, i: nat)
    requires i < |EscapeHost(host)| && EscapeHost(host)[i] == '.'
    ensures i >= |ZeroWidthSpace| && EscapeHost(host)[i - |ZeroWidthSpace|..i] == ZeroWidthSpace
    decreases |host|
  {
    var rest := EscapeHost(host[1..]);
    var head := if host[0] == '.' then ZeroWidthSpace + "." else [host[0]];
    assert EscapeHost(host) == head + rest;
    if i < |head| {
      assert head == ZeroWidthSpace + ".";
      assert i == |ZeroWidthSpace|;
    } else {
      EscapedDotsFollowMarker(host[1..], i - |head|);
      assert EscapeHost(host)[i - |ZeroWidthSpace|..i]
          == rest[i - |head| - |ZeroWidthSpace|..i - |head|];
    }
  }

  // ---------------------------------------------------------------------
  // Theme colours

  const DefaultBrandColor := "#346df1"
  const DefaultButtonText := "#ffffff"

  /** The part of the e-mail theme the template reads; an absent value is
      `None`. */
  datatype Theme = Theme(brandColor: Option<string>, buttonText: Option<string>)

  datatype Palette = Palette(
    background: string,
    text: string,
    mainBackground: string,
    buttonBackground: string,
    buttonBorder: string,
    buttonText: string)

  /** `value || fallback` for an optional string: absent and empty both fall back. */
  function OrDefault(value: Option<string>, fallback: string): (r: string)
    ensures value.Some? && value.value != "" ==> r == value.value
    ensures value.None? || value.value == "" ==> r == fallback
  {
    if value.Some? && value.value != "" then value.value else fallback
  }

  /** The `color` object of `html`. */
  function PaletteFor(theme: Theme): Palette {
    var brand := OrDefault(theme.brandColor, DefaultBrandColor);
    Palette("#f4f4f7", "#333333", "#ffffff", brand, brand, OrDefault(theme.buttonText, DefaultButtonText))
  }

  /** The button's background and border are the brand colour, which is the
      theme's when it gives a non-empty one and `#346df1` otherwise; the
      button text falls back to white the same way; the page colours are
      fixed. */
  lemma PaletteProperties(theme: Theme)
    ensures PaletteFor(theme).buttonBackground == PaletteFor(theme).buttonBorder
    ensures PaletteFor(theme).buttonBackground ==
      (if theme.brandColor.Some? && theme.brandColor.value != "" then theme.brandColor.value else DefaultBrandColor)
    ensures PaletteFor(theme).buttonText ==
      (if theme.buttonText.Some? && theme.buttonText.value != "" then theme.buttonText.value else DefaultButtonText)
    ensures PaletteFor(theme).background == "#f4f4f7"
    ensures PaletteFor(theme).text == "#333333"
    ensures PaletteFor(theme).mainBackground == "#ffffff"
  {
  }

  /** An empty theme and a theme of empty strings give the same colours. */
  lemma EmptyThemeIsDefault()
    ensures PaletteFor(Theme(None, None)) == PaletteFor(Theme(Some(""), Some("")))
    ensures PaletteFor(Theme(None, None)).buttonBackground == DefaultBrandColor
  {
  }

  // ---------------------------------------------------------------------
  // Subject and plain-text body

  const SignInPrefix := "Sign in to "

  function Subject(host: string): (r: string)
    ensures StartsWith(r, SignInPrefix) && r[|SignInPrefix|..] == host
  {
    SignInPrefix + host
  }

  /** `text({ url, host })` */
  function TextBody(url: string, host: string): (r: string)
    ensures |r| == |Subject(host)| + 1 + |url| + 2
    ensures r[..|Subject(host)|] == Subject(host)
    ensures r[|Subject(host)|] == '\n'
    ensures r[|Subject(host)| + 1..|r| - 2] == url
    ensures r[|r| - 2..] == "\n\n"
  {
    Subject(host) + "\n" + url + "\n\n"
  }

  /** When neither host nor url holds a line break, splitting the body at
      line breaks gives the subject, the link, and the two empty pieces the
      trailing blank line leaves. */
  lemma TextBodyLines(url: string, host: string)
    requires '\n' !in host && '\n' !in url
    ensures Split(TextBody(url, host), '\n') == [Subject(host), url, "", ""]
  {
    var s := Subject(host);
    var r := TextBody(url, host);
    assert '\n' !in s by {
      forall k | 0 <= k < |s| ensures s[k] != '\n' {
        if k >= |SignInPrefix| {
          assert s[k] == host[k - |SignInPrefix|];
        }
      }
    }
    assert r == s + "\n" + (url + "\n\n");
    assert r[..|s|] == s;
    assert IndexOf(r, '\n') == Some(|s|) by {
      IndexOfAfter(s, '\n', url + "\n\n");
    }
    assert r[|s| + 1..] == url + "\n\n";
    SplitLinkLine(url);
  }

  /** The link line and the blank line after it split into the link and
      two empty pieces. */
  lemma SplitLinkLine(url: string)
    requires '\n' !in url
    ensures Split(url + "\n\n", '\n') == [url, "", ""]
  {
    var r1 := url + "\n\n";
    assert r1 == url + "\n" + "\n";
    assert IndexOf(r1, '\n') == Some(|url|) by {
      IndexOfAfter(url, '\n', "\n");
    }
    var r2 := r1[|url| + 1..];
    assert r2 == "\n";
    assert IndexOf(r2, '\n') == Some(0);
    assert r2[1..] == "";
    assert Split("", '\n') == [""];
    assert Split(r2, '\n') == [""] + Split("", '\n');
    assert r1[..|url|] == url;
  }

  /** The first `c` of `pre + [c] + post`, when `pre` holds none, is at `|pre|`. */
  lemma {:induction false} IndexOfAfter(pre: string, c: char, post: string)
    requires c !in pre
    ensures IndexOf(pre + [c] + post, c) == Some(|pre|)
  {
    var s := pre + [c] + post;
    if pre != [] {
      assert s[1..] == pre[1..] + [c] + post;
      IndexOfAfter(pre[1..], c, post);
    }
  }

  // ---------------------------------------------------------------------
  // Failed recipients

  /** An entry of nodemailer's `rejected` or `pending` list: an address
      string, an address object, or a missing value. */
  datatype Recipient = Plain(address: string) | Named(name: string, mailbox: string) | Absent

  /** `Boolean(x)`: only the empty string and a missing value are falsy. */
  predicate Truthy(r: Recipient) {
    match r
    case Plain(a) => a != ""
    case Named(_, _) => true
    case Absent => false
  }

  /** `filter(Boolean)` */
  function Truthful(rs: seq<Recipient>): (r: seq<Recipient>)
    ensures forall x :: x in r <==> x in rs && Truthy(x)
  {
    if rs == [] then [] else (if Truthy(rs[0]) then [rs[0]] else []) + Truthful(rs[1..])
  }

  /** `result.rejected.concat(result.pending).filter(Boolean)` */
  function Failed(rejected: seq<Recipient>, pending: seq<Recipient>): seq<Recipient> {
    Truthful(rejected + pending)
  }

  /** Filtering commutes with concatenation, so the rejected recipients are
      reported before the pending ones, each list in its own order. */
  lemma {:induction false} TruthfulAppend(a: seq<Recipient>, b: seq<Recipient>)
    ensures Truthful(a + b) == Truthful(a) + Truthful(b)
  {
    if a == [] {
      assert a + b == b;
    } else {
      assert (a + b)[0] == a[0] && (a + b)[1..] == a[1..] + b;
      TruthfulAppend(a[1..], b);
    }
  }

  /** A list without a truthy entry filters to nothing. */
  lemma {:induction false} NoneTruthy(rs: seq<Recipient>)
    requires forall x :: x in rs ==> !Truthy(x)
    ensures Truthful(rs) == []
  {
    if rs != [] {
      assert rs[0] in rs;
      NoneTruthy(rs[1..]);
    }
  }

  /** How `join` prints an entry: an object prints as `[object Object]`. */
  function Render(r: Recipient): string {
    match r
    case Plain(a) => a
    case Named(_, _) => "[object Object]"
    case Absent => ""
  }

  function RenderAll(rs: seq<Recipient>): (r: seq<string>)
    ensures |r| == |rs|
  {
    seq(|rs|, i requires 0 <= i < |rs| => Render(rs[i]))
  }

  datatype SendOutcome = Sent | Error(message: string)

  /** What `sendVerificationRequest` does once the server has answered: it
      throws when some recipient failed, and returns otherwise. */
  /** The call throws exactly when some entry of either list is truthy, and
      the message then names the failed entries between fixed words. */
  function Outcome(rejected: seq<Recipient>, pending: seq<Recipient>): (r: SendOutcome)
    ensures r.Error? <==> exists x :: x in rejected + pending && Truthy(x)
    ensures r.Error? ==> StartsWith(r.message, "Email(s) (")
  {
    var failed := Failed(rejected, pending);
    if |failed| > 0 then
      assert failed[0] in failed;
      Error("Email(s) (" + Join(RenderAll(failed), ", ") + ") could not be sent")
    else Sent
  }

  /** Empty strings and missing entries are not failures. */
  lemma FalsyEntriesIgnored(rejected: seq<Recipient>, pending: seq<Recipient>)
    requires forall x :: x in rejected + pending ==> x == Absent || x == Plain("")
    ensures Outcome(rejected, pending) == Sent
  {
  }

  /** A single rejected address is named verbatim. */
  lemma SingleRejection(address: string, pending: seq<Recipient>)
    requires address != ""
    requires forall x :: x in pending ==> !Truthy(x)
    ensures Outcome([Plain(address)], pending) == Error("Email(s) (" + address + ") could not be sent")
  {
    TruthfulAppend([Plain(address)], pending);
    NoneTruthy(pending);
    assert Truthful([Plain(address)]) == [Plain(address)] by {
      assert [Plain(address)][1..] == [];
    }
  }
}
