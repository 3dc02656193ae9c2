/** The push notification context (`NotificationContext`): whether push is enabled,
    the permission request, and `urlBase64ToUint8Array`, which turns the VAPID public
    key from base64url (section 5 of RFC 4648) into bytes by re-padding it, mapping it
    to the base64 alphabet (section 4 of RFC 4648) and decoding it with `atob`. */
module PushNotifications {
  import opened Wrappers
  import opened Hex

  /** `"=".repeat((4 - len % 4) % 4)`. */
  function Padding(len: nat): (pad: string)
    ensures |pad| == (4 - len % 4) % 4 && |pad| < 4
    ensures (len + |pad|) % 4 == 0
    ensures len % 4 == 0 ==> pad == ""
    ensures forall k :: 0 <= k < |pad| ==> pad[k] == '='
  {
    Repeat('=', (4 - len % 4) % 4)
  }

  /** `.replace(/-/g, "+").replace(/_/g, "/")`. */
  function FromUrlSafe(s: string): (r: string)
    ensures |r| == |s|
    ensures forall k :: 0 <= k < |s| ==> r[k] == (if s[k] == '-' then '+' else if s[k] == '_' then '/' else s[k])
    ensures forall k :: 0 <= k < |r| ==> r[k] != '-' && r[k] != '_'
  {
    if s == [] then []
    else [if s[0] == '-' then '+' else if s[0] == '_' then '/' else s[0]] + FromUrlSafe(s[1..])
  }

  /** The base64 alphabet of section 4 of RFC 4648. */
  predicate IsBase64Char(c: char) {
    'A' <= c <= 'Z' || 'a' <= c <= 'z' || '0' <= c <= '9' || c == '+' || c == '/'
  }

  function SextetValue(c: char): (v: nat)
    requires IsBase64Char(c)
    ensures v < 64
  {
    if 'A' <= c <= 'Z' then c as int - 'A' as int
    else if 'a' <= c <= 'z' then c as int - 'a' as int + 26
    else if '0' <= c <= '9' then c as int - '0' as int + 52
    else if c == '+' then 62
    else 63
  }

  function Base64Char(v: nat): (c: char)
    requires v < 64
    ensures IsBase64Char(c) && SextetValue(c) == v
  {
    if v < 26 then ('A' as int + v) as char
    else if v < 52 then ('a' as int + v - 26) as char
    else if v < 62 then ('0' as int + v - 52) as char
    else if v == 62 then '+'
    else '/'
  }

  /** The four characters of a full three-byte group. */
  function Group3(b0: byte, b1: byte, b2: byte): (g: string)
    ensures |g| == 4
  {
    [Base64Char(b0 / 4), Base64Char(b0 % 4 * 16 + b1 / 16), Base64Char(b1 % 16 * 4 + b2 / 64), Base64Char(b2 % 64)]
  }

  /** The last group of an encoding whose length leaves two bytes over. */
  function Group2(b0: byte, b1: byte): (g: string)
    ensures |g| == 4
  {
    [Base64Char(b0 / 4), Base64Char(b0 % 4 * 16 + b1 / 16), Base64Char(b1 % 16 * 4), '=']
  }

  /** The last group of an encoding whose length leaves one byte over. */
  function Group1(b0: byte): (g: string)
    ensures |g| == 4
  {
    [Base64Char(b0 / 4), Base64Char(b0 % 4 * 16), '=', '=']
  }

  /** The base64 encoding of section 4 of RFC 4648, with padding. */
  function Encode(bs: seq<byte>): (s: string)
    ensures |s| % 4 == 0
    decreases |bs|
  {
    if |bs| == 0 then ""
    else if |bs| == 1 then Group1(bs[0])
    else if |bs| == 2 then Group2(bs[0], bs[1])
    else Group3(bs[0], bs[1], bs[2]) + Encode(bs[3..])
  }

  /** Bytes from the first two and three sextets of a group. */
  function Byte0(a: char, b: char): byte
    requires IsBase64Char(a) && IsBase64Char(b)
  {
    SextetValue(a) * 4 + SextetValue(b) / 16
  }

  function Byte1(b: char, c: char): byte
    requires IsBase64Char(b) && IsBase64Char(c)
  {
    SextetValue(b) % 16 * 16 + SextetValue(c) / 4
  }

  function Byte2(c: char, d: char): byte
    requires IsBase64Char(c) && IsBase64Char(d)
  {
    SextetValue(c) % 4 * 64 + SextetValue(d)
  }

  /** `atob` on padded base64: groups of four characters, `=` only at the end of the
      last group; `None` where `atob` throws. */
  function Decode(s: string): Option<seq<byte>>
    decreases |s|
  {
    if s == [] then Some([])
    else if |s| < 4 then None
    else if |s| == 4 && s[2] == '=' && s[3] == '=' then
      if IsBase64Char(s[0]) && IsBase64Char(s[1]) then Some([Byte0(s[0], s[1])]) else None
    else if |s| == 4 && s[3] == '=' then
      if IsBase64Char(s[0]) && IsBase64Char(s[1]) && IsBase64Char(s[2]) then Some([Byte0(s[0], s[1]), Byte1(s[1], s[2])]) else None
    else if IsBase64Char(s[0]) && IsBase64Char(s[1]) && IsBase64Char(s[2]) && IsBase64Char(s[3]) then
      match Decode(s[4..])
      case None => None
      case Some(rest) => Some([Byte0(s[0], s[1]), Byte1(s[1], s[2]), Byte2(s[2], s[3])] + rest)
    else None
  }

  lemma Byte0Of(b0: byte, b1: byte)
    ensures Byte0(Base64Char(b0 / 4), Base64Char(b0 % 4 * 16 + b1 / 16)) == b0
  {
  }

  lemma Byte1Of(b0: byte, b1: byte, v: nat)
    requires v < 64 && v / 4 == b1 % 16
    ensures Byte1(Base64Char(b0 % 4 * 16 + b1 / 16), Base64Char(v)) == b1
  {
    assert (b0 % 4 * 16 + b1 / 16) % 16 == b1 / 16;
  }

  lemma Byte2Of(b1: byte, b2: byte)
    ensures Byte2(Base64Char(b1 % 16 * 4 + b2 / 64), Base64Char(b2 % 64)) == b2
  {
    assert (b1 % 16 * 4 + b2 / 64) % 4 == b2 / 64;
  }

  lemma DecodeGroup1(b0: byte)
    ensures Decode(Group1(b0)) == Some([b0])
  {
    Byte0Of(b0, 0);
  }

  lemma DecodeGroup2(b0: byte, b1: byte)
    ensures Decode(Group2(b0, b1)) == Some([b0, b1])
  {
    var g := Group2(b0, b1);
    assert g[2] != '=' && g[3] == '=';
    Byte0Of(b0, b1);
    Byte1Of(b0, b1, b1 % 16 * 4);
  }

  lemma DecodeGroup3(b0: byte, b1: byte, b2: byte, t: string, rest: seq<byte>)
    requires Decode(t) == Some(rest)
    ensures Decode(Group3(b0, b1, b2) + t) == Some([b0, b1, b2] + rest)
  {
    var g := Group3(b0, b1, b2);
    var s := g + t;
    assert s[..4] == g && s[4..] == t;
    assert s[3] != '=';
    Byte0Of(b0, b1);
    Byte1Of(b0, b1, b1 % 16 * 4 + b2 / 64);
    Byte2Of(b1, b2);
  }

  /** Decoding undoes encoding. */
  lemma {:induction false} DecodeEncode(bs: seq<byte>)
    ensures Decode(Encode(bs)) == Some(bs)
    decreases |bs|
  {
    if |bs| == 1 {
      DecodeGroup1(bs[0]);
      assert bs == [bs[0]];
    } else if |bs| == 2 {
      DecodeGroup2(bs[0], bs[1]);
      assert bs == [bs[0], bs[1]];
    } else if |bs| >= 3 {
      DecodeEncode(bs[3..]);
      DecodeGroup3(bs[0], bs[1], bs[2], Encode(bs[3..]), bs[3..]);
      assert bs == [bs[0], bs[1], bs[2]] + bs[3..];
    }
  }

  /** `urlBase64ToUint8Array` before the copy loop: the decoded bytes, or `None` where
      `atob` throws. */
  function DecodeUrlBase64(key: string): Option<seq<byte>> {
    Decode(FromUrlSafe(key + Padding(|key|)))
  }

  /** The base64url form of section 5 of RFC 4648 without padding, as VAPID keys are
      published. */
  function ToUrlSafe(s: string): (r: string)
    ensures |r| == |s|
    ensures forall k :: 0 <= k < |s| ==> r[k] == (if s[k] == '+' then '-' else if s[k] == '/' then '_' else s[k])
  {
    if s == [] then [] else [if s[0] == '+' then '-' else if s[0] == '/' then '_' else s[0]] + ToUrlSafe(s[1..])
  }

  /** How many `=` end the encoding of `n` bytes. */
  function PadCount(n: nat): nat {
    if n % 3 == 1 then 2 else if n % 3 == 2 then 1 else 0
  }

  /** Neither character that base64url adds occurs. */
  predicate NoUrlChars(s: string) {
    forall k :: 0 <= k < |s| ==> s[k] != '-' && s[k] != '_'
  }

  lemma {:induction false} EncodeLength(bs: seq<byte>)
    ensures |Encode(bs)| == 4 * ((|bs| + 2) / 3)
    decreases |bs|
  {
    if |bs| >= 3 {
      EncodeLength(bs[3..]);
    }
  }

  lemma {:induction false} EncodeNoUrlChars(bs: seq<byte>)
    ensures NoUrlChars(Encode(bs))
    decreases |bs|
  {
    if |bs| >= 3 {
      EncodeNoUrlChars(bs[3..]);
      var g := Group3(bs[0], bs[1], bs[2]);
      var t := Encode(bs[3..]);
      assert forall k :: 4 <= k < |g + t| ==> (g + t)[k] == t[k - 4];
    }
  }

  /** The encoding ends in `PadCount` characters `=`. */
  lemma {:induction false} EncodeTail(bs: seq<byte>)
    ensures PadCount(|bs|) <= |Encode(bs)|
    ensures forall k :: |Encode(bs)| - PadCount(|bs|) <= k < |Encode(bs)| ==> Encode(bs)[k] == '='
    decreases |bs|
  {
    if |bs| >= 3 {
      EncodeTail(bs[3..]);
      var t := Encode(bs[3..]);
      var e := Group3(bs[0], bs[1], bs[2]) + t;
      assert Encode(bs) == e;
      assert PadCount(|bs|) == PadCount(|bs| - 3);
      assert forall k :: 4 <= k < |e| ==> e[k] == t[k - 4];
    }
  }

  /** Stripping `n` of the padding and re-padding restores it. */
  lemma PaddingRestores(len: nat, n: nat)
    requires len % 4 == 0 && n <= 2 && n <= len
    ensures |Padding(len - n)| == n
  {
    assert (len - n) % 4 == (4 - n) % 4;
  }

  /** The encoding without its trailing `=`. */
  function Unpadded(bs: seq<byte>): (s: string)
  {
    var e := Encode(bs);
    EncodeTail(bs);
    e[..|e| - PadCount(|bs|)]
  }

  /** Every VAPID-style key decodes to the bytes it encodes: re-padding and mapping back
      to the base64 alphabet restore the padded encoding. */
  lemma UrlKeyRoundTrip(bs: seq<byte>)
    ensures DecodeUrlBase64(ToUrlSafe(Unpadded(bs))) == Some(bs)
  {
    var e := Encode(bs);
    EncodeTail(bs);
    EncodeNoUrlChars(bs);
    var u := Unpadded(bs);
    var key := ToUrlSafe(u);
    var p := Padding(|key|);
    PaddingRestores(|e|, PadCount(|bs|));
    assert e == u + p;
    var back := FromUrlSafe(key + p);
    forall k | 0 <= k < |e| ensures back[k] == e[k] {
      if k < |u| {
        assert (key + p)[k] == key[k];
      } else {
        assert (key + p)[k] == p[k - |u|];
      }
    }
    assert back == e;
    DecodeEncode(bs);
  }

  /** The copy loop: `outputArray[i] = rawData.charCodeAt(i)`. */
  method UrlBase64ToUint8Array(key: string) returns (out: Option<array<byte>>)
    ensures DecodeUrlBase64(key).None? <==> out.None?
    ensures out.Some? ==> fresh(out.value) && out.value[..] == DecodeUrlBase64(key).value
  {
    var raw := DecodeUrlBase64(key);
    if raw.None? {
      return None;
    }
    var data := raw.value;
    var a := new byte[|data|];
    var i := 0;
    while i < |data|
      invariant 0 <= i <= |data|
      invariant a[..i] == data[..i]
    {
      a[i] := data[i];
      i := i + 1;
    }
    assert a[..] == data;
    out := Some(a);
  }

  /** A notice the context shows. */
  datatype Toast = Success(text: string) | Failure(text: string)

  /** What the browser offers and answers: the Notification API, service workers, the
      user's answer to the permission prompt, and whether registering the worker, the
      push subscription or saving it fails. */
  datatype Browser = Browser(
    hasNotification: bool,
    hasServiceWorker: bool,
    permissionAnswer: string,
    setupFails: bool)

  class PushContext {
    var pushEnabled: bool

    constructor ()
      ensures !pushEnabled
    {
      pushEnabled := false;
    }

    /** `checkPushPermission`: push is enabled iff the permission is "granted"; without
        the Notification API nothing changes. */
    method CheckPushPermission(hasNotification: bool, permission: string)
      modifies this
      ensures hasNotification ==> (pushEnabled <==> permission == "granted")
      ensures !hasNotification ==> pushEnabled == old(pushEnabled)
    {
      if hasNotification {
        pushEnabled := permission == "granted";
      }
    }

    /** `requestPushPermission`. Missing support is reported before any prompt; a
        granted permission enables push before the worker is set up, and a decoding
        failure of the key or a setup failure is caught and reported. */
    method RequestPushPermission(b: Browser, vapidKey: Option<string>) returns (prompted: bool, key: Option<seq<byte>>, toast: Toast)
      modifies this
      ensures !b.hasNotification ==> !prompted && toast == Failure("Push notifications are not supported in this browser") && pushEnabled == old(pushEnabled)
      ensures b.hasNotification && !b.hasServiceWorker ==> !prompted && toast == Failure("Service workers are not supported in this browser") && pushEnabled == old(pushEnabled)
      ensures prompted <==> b.hasNotification && b.hasServiceWorker
      ensures prompted && b.permissionAnswer != "granted" ==> toast == Failure("Push notification permission denied") && pushEnabled == old(pushEnabled) && key.None?
      ensures prompted && b.permissionAnswer == "granted" ==> pushEnabled && key == DecodeUrlBase64(StringOr(vapidKey, ""))
      ensures prompted && b.permissionAnswer == "granted" ==>
        toast == (if key.Some? && !b.setupFails then Success("Push notifications enabled!") else Failure("Failed to enable push notifications"))
      ensures !prompted ==> key.None?
    {
      prompted, key := false, None;
      if !b.hasNotification {
        return false, None, Failure("Push notifications are not supported in this browser");
      }
      if !b.hasServiceWorker {
        return false, None, Failure("Service workers are not supported in this browser");
      }
      prompted := true;
      if b.permissionAnswer == "granted" {
        pushEnabled := true;
        key := DecodeUrlBase64(StringOr(vapidKey, ""));
        if key.Some? && !b.setupFails {
          toast := Success("Push notifications enabled!");
        } else {
          toast := Failure("Failed to enable push notifications");
        }
      } else {
        toast := Failure("Push notification permission denied");
      }
    }
  }
}
