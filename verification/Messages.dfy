/**
  The messages the processes exchange (lib/messages.py): a routing prefix, a colon and
  an encoded payload.  Pickling and base64 (section 6.8 of RFC 2045) enter as a codec
  whose text has no colon and decodes back.
 */
module Messages {
  import opened Basics
  import opened Text

  datatype PayItem = PayItem(wallet: string, amount: real)

  datatype Msg =
    | Pay(payments: seq<PayItem>, paymentid: string)
    | Paid(orig: Msg)
    | UnPaid(orig: Msg)
    | Exit
    | Note(text: string)

  datatype Payload =
    | PayPayload(payments: seq<PayItem>, paymentid: string)
    | TextPayload(text: string)

  datatype Codec = Codec(dump: Payload -> string, load: string -> Option<Payload>)

  const FOR_MAIN := "Main"
  const FOR_ALL := "All"
  const FOR_WALLET := "Wallet"
  const EXIT := "All/Exit"
  const PAY := "Wallet/Pay"
  const PAID := "All/Paid"
  const UNPAID := "All/UnPaid"

  // ---- text -----------------------------------------------------------------------

  predicate IsSpace(c: char)
  {
    c == ' ' || c == '\n' || c == '\t' || c == '\r'
  }

  function StripRight(s: string): string
  {
    if |s| > 0 && IsSpace(s[|s| - 1]) then StripRight(s[..|s| - 1]) else s
  }

  function StripLeft(s: string): string
  {
    if |s| > 0 && IsSpace(s[0]) then StripLeft(s[1..]) else s
  }

  function Strip(s: string): string { StripLeft(StripRight(s)) }

  predicate StartsWith(s: string, prefix: string) { prefix <= s }

  function Frame(prefix: string, body: string): string { Strip(prefix + ":" + body) }

  function Encode(c: Codec, m: Msg): string
  {
    match m
    case Pay(payments, paymentid) => Frame(PAY, c.dump(PayPayload(payments, paymentid)))
    case Paid(orig) => Frame(PAID, c.dump(TextPayload(Encode(c, orig))))
    case UnPaid(orig) => Frame(UNPAID, c.dump(TextPayload(Encode(c, orig))))
    case Exit => EXIT
    case Note(text) => text
  }

  datatype MsgData = NoData | Data(payload: Payload) | Undecodable

  function GetMsgData(c: Codec, msg: string): MsgData
  {
    var parts := Split(msg, ':');
    if |parts| > 1 then
      match c.load(parts[1])
      case Some(p) => Data(p)
      case None => Undecodable
    else NoData
  }

  // The payload a message frames, if it frames one.
  function OwnPayload(c: Codec, m: Msg): set<Payload>
  {
    match m
    case Pay(payments, paymentid) => {PayPayload(payments, paymentid)}
    case Paid(orig) => {TextPayload(Encode(c, orig))}
    case UnPaid(orig) => {TextPayload(Encode(c, orig))}
    case Exit => {}
    case Note(_) => {}
  }

  // That, and the payloads inside the message it carries.
  function PayloadsOf(c: Codec, m: Msg): set<Payload>
  {
    OwnPayload(c, m) +
    match m
    case Paid(orig) => PayloadsOf(c, orig)
    case UnPaid(orig) => PayloadsOf(c, orig)
    case _ => {}
  }

  // These payloads are written without a colon and read back.
  predicate Faithful(c: Codec, ps: set<Payload>)
  {
    forall p :: p in ps ==> ':' !in c.dump(p) && c.load(StripRight(c.dump(p))) == Some(p)
  }

  // Blanks, tabs and line ends go on both sides, and nothing else.
  lemma {:induction false} StripMeans(s: string) returns (i: nat, j: nat)
    ensures i <= j <= |s| && Strip(s) == s[i..j]
    ensures forall k :: 0 <= k < i || j <= k < |s| ==> s[k] in {' ', '\n', '\t', '\r'}
    ensures i < j ==> s[i] !in {' ', '\n', '\t', '\r'} && s[j - 1] !in {' ', '\n', '\t', '\r'}
  {
    j := RightEnd(s);
    assert Strip(s) == StripLeft(StripRight(s));
    hide *;
    i := LeftEnd(s[..j]);
    assert s[..j][i..] == s[i..j];
    assert forall k :: 0 <= k < j ==> s[..j][k] == s[k];
  }

  lemma {:induction false} RightEnd(s: string) returns (j: nat)
    ensures j <= |s| && StripRight(s) == s[..j]
    ensures forall k :: j <= k < |s| ==> s[k] in {' ', '\n', '\t', '\r'}
    ensures j > 0 ==> s[j - 1] !in {' ', '\n', '\t', '\r'}
  {
    j := |s|;
    if j > 0 && IsSpace(s[j - 1]) {
      j := RightEnd(s[..j - 1]);
    }
  }

  lemma {:induction false} LeftEnd(s: string) returns (i: nat)
    ensures i <= |s| && StripLeft(s) == s[i..]
    ensures forall k :: 0 <= k < i ==> s[k] in {' ', '\n', '\t', '\r'}
    ensures i < |s| ==> s[i] !in {' ', '\n', '\t', '\r'}
  {
    i := 0;
    if |s| > 0 && IsSpace(s[0]) {
      var rest := LeftEnd(s[1..]);
      i := rest + 1;
      assert s[1..][rest..] == s[i..];
      assert forall k :: 1 <= k < i ==> s[k] == s[1..][k - 1];
    }
  }

  // ---- framing --------------------------------------------------------------------

  lemma {:induction false} StripRightBody(head: string, body: string)
    requires |head| > 0 && !IsSpace(head[|head| - 1])
    ensures StripRight(head + body) == head + StripRight(body)
  {
    if |body| == 0 {
      assert head + body == head;
    } else {
      assert (head + body)[..|head + body| - 1] == head + body[..|body| - 1];
      StripRightBody(head, body[..|body| - 1]);
    }
  }

  lemma {:induction false} StripRightSubset(s: string)
    ensures StripRight(s) <= s
  {
    if |s| > 0 && IsSpace(s[|s| - 1]) {
      StripRightSubset(s[..|s| - 1]);
    }
  }

  lemma {:induction false} FrameIs(prefix: string, body: string)
    requires |prefix| > 0 && !IsSpace(prefix[0])
    ensures Frame(prefix, body) == prefix + ":" + StripRight(body)
  {
    StripRightBody(prefix + ":", body);
    assert (prefix + ":" + StripRight(body))[0] == prefix[0];
  }

  lemma {:induction false} FrameDecodes(c: Codec, prefix: string, p: Payload)
    requires Faithful(c, {p}) && |prefix| > 0 && !IsSpace(prefix[0]) && ':' !in prefix
    ensures GetMsgData(c, Frame(prefix, c.dump(p))) == Data(p)
    ensures prefix + ":" <= Frame(prefix, c.dump(p))
  {
    var body := c.dump(p);
    FrameIs(prefix, body);
    StripRightSubset(body);
    SplitFirst(prefix, ':', StripRight(body));
    SplitOne(StripRight(body), ':');
    assert prefix + [':'] + StripRight(body) == prefix + ":" + StripRight(body);
  }

  // Decoding a framed message gives back what was framed: the payment request of a pay
  // message, and the original message text of a notice.
  lemma {:induction false} DecodeEncode(c: Codec, m: Msg)
    requires Faithful(c, OwnPayload(c, m))
    ensures
      match m
      case Pay(payments, paymentid) => GetMsgData(c, Encode(c, m)) == Data(PayPayload(payments, paymentid))
      case Paid(orig) => GetMsgData(c, Encode(c, m)) == Data(TextPayload(Encode(c, orig)))
      case UnPaid(orig) => GetMsgData(c, Encode(c, m)) == Data(TextPayload(Encode(c, orig)))
      case Exit => GetMsgData(c, Encode(c, m)) == NoData
      case Note(_) => true
  {
    match m {
      case Pay(payments, paymentid) => FrameDecodes(c, PAY, PayPayload(payments, paymentid));
      case Paid(orig) => FrameDecodes(c, PAID, TextPayload(Encode(c, orig)));
      case UnPaid(orig) => FrameDecodes(c, UNPAID, TextPayload(Encode(c, orig)));
      case Exit => SplitOne(EXIT, ':');
      case Note(_) =>
    }
  }

  // ---- routing --------------------------------------------------------------------

  datatype Route = ToMain | ToAll | ToWallet | Unknown

  // The order of the tests in the server's main loop.
  function RouteOf(msg: string): Route
  {
    if StartsWith(msg, FOR_MAIN) then ToMain
    else if StartsWith(msg, FOR_ALL) then ToAll
    else if StartsWith(msg, FOR_WALLET) then ToWallet
    else Unknown
  }

  // The same on message values.
  function RouteFor(m: Msg): Route
  {
    match m
    case Pay(_, _) => ToWallet
    case Paid(_) => ToAll
    case UnPaid(_) => ToAll
    case Exit => ToAll
    case Note(text) => RouteOf(text)
  }

  lemma {:induction false} PrefixOf(s: string, prefix: string, shorter: string)
    requires prefix <= s
    ensures shorter <= prefix ==> shorter <= s
    ensures |shorter| <= |prefix| && shorter <= s ==> shorter <= prefix
  {
    assert |shorter| <= |prefix| && shorter <= s ==> shorter == s[..|shorter|] == prefix[..|shorter|];
  }

  // The prefixes the main loop tests for, in its order.
  lemma {:induction false} RouteByPrefix(msg: string)
    ensures RouteOf(msg) == if "Main" <= msg then ToMain
                            else if "All" <= msg then ToAll
                            else if "Wallet" <= msg then ToWallet else Unknown
  {
  }

  // Routing the text is routing the message: requests go to the wallet, the rest to all.  Only
  // a PAID notice passes for one: an UNPAID notice starts differently.
  lemma {:induction false} RoutingOfText(c: Codec, m: Msg)
    requires Faithful(c, OwnPayload(c, m)) && !m.Note?
    ensures RouteOf(Encode(c, m)) == RouteFor(m) == if m.Pay? then ToWallet else ToAll
    ensures "Wallet/Pay:" <= Encode(c, m) <==> m.Pay?
    ensures "All/Paid:" <= Encode(c, m) <==> m.Paid?
    ensures "All/UnPaid:" <= Encode(c, m) <==> m.UnPaid?
    ensures "All/Paid" <= Encode(c, m) <==> m.Paid?
    ensures Encode(c, m) == "All/Exit" <==> m.Exit?
  {
    StartOfText(c, m);
    StartsApart(Encode(c, m));
    hide Encode, RouteOf, Faithful;
  }

  lemma {:induction false} StartOfText(c: Codec, m: Msg)
    requires Faithful(c, OwnPayload(c, m)) && !m.Note?
    ensures
      match m
      case Pay(_, _) => "Wallet/Pay:" <= Encode(c, m)
      case Paid(_) => "All/Paid:" <= Encode(c, m)
      case UnPaid(_) => "All/UnPaid:" <= Encode(c, m)
      case _ => Encode(c, m) == "All/Exit"
  {
    match m {
      case Pay(payments, paymentid) => FrameDecodes(c, PAY, PayPayload(payments, paymentid));
      case Paid(orig) => FrameDecodes(c, PAID, TextPayload(Encode(c, orig)));
      case UnPaid(orig) => FrameDecodes(c, UNPAID, TextPayload(Encode(c, orig)));
      case Exit =>
    }
  }

  // The first and the fifth letter tell the four kinds of text apart.
  lemma {:induction false} StartsApart(s: string)
    ensures "Wallet/Pay:" <= s ==> RouteOf(s) == ToWallet && s[0] == 'W'
    ensures "All/Paid" <= s ==> RouteOf(s) == ToAll && s[0] == 'A' && s[4] == 'P'
    ensures "All/Paid:" <= s ==> "All/Paid" <= s
    ensures "All/UnPaid:" <= s ==> RouteOf(s) == ToAll && s[0] == 'A' && s[4] == 'U'
    ensures s == "All/Exit" ==> RouteOf(s) == ToAll && s[0] == 'A' && s[4] == 'E'
  {
    if "Wallet/Pay:" <= s {
      PrefixOf(s, "Wallet/Pay:", "Wallet");
      assert s[0] == "Wallet/Pay:"[0];
    } else if "All/Paid" <= s {
      PrefixOf(s, "All/Paid", "All");
      assert s[0] == "All/Paid"[0] && s[4] == "All/Paid"[4];
    } else if "All/UnPaid:" <= s {
      PrefixOf(s, "All/UnPaid:", "All");
      assert s[0] == "All/UnPaid:"[0] && s[4] == "All/UnPaid:"[4];
    } else if s == "All/Exit" {
      PrefixOf(s, "All/Exit", "All");
      assert s[0] == 'A';
    }
    if "All/Paid:" <= s {
      PrefixOf(s, "All/Paid:", "All/Paid");
    }
  }

  // Distinct messages have distinct texts, so the text can serve as the key of the work
  // it asks for.
  lemma {:induction false} EncodeInjective(c: Codec, m: Msg, n: Msg)
    requires Faithful(c, PayloadsOf(c, m) + PayloadsOf(c, n)) && Framed(m) && Framed(n)
    requires Encode(c, m) == Encode(c, n)
    ensures m == n
  {
    RoutingOfText(c, m);
    RoutingOfText(c, n);
    DecodeEncode(c, m);
    DecodeEncode(c, n);
    match m {
      case Paid(orig) => EncodeInjective(c, orig, n.orig);
      case UnPaid(orig) => EncodeInjective(c, orig, n.orig);
      case _ =>
    }
  }

  // No part of the message is free text.
  predicate Framed(m: Msg)
  {
    match m
    case Pay(_, _) => true
    case Paid(orig) => Framed(orig)
    case UnPaid(orig) => Framed(orig)
    case Exit => true
    case Note(_) => false
  }
}
