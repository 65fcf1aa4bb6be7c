/** The mDNS announcement: the encoder of the registrar, a decoder for DNS messages, and when the
    one undoes the other. */
module Mdns {
  import opened Text
  import opened Bytes
  import Decimal

  const DOT: Byte := 46
  const DASH: Byte := 45

  const TYPE_A := 1
  const TYPE_PTR := 12
  const TYPE_TXT := 16
  const TYPE_SRV := 33
  const CLASS_IN_FLUSH := 0x8001
  const TTL := 120

  datatype Config = Config(serviceType: seq<Byte>, domain: seq<Byte>)
  /** `ip` is what `net.ParseIP(...).To4()` makes of the address: four bytes or nothing. */
  datatype Instance = Instance(id: seq<Byte>, name: seq<Byte>, port: int, ip: Option<seq<Byte>>, scheme: seq<Byte>,
                               prefix: seq<Byte>, healthPath: seq<Byte>, audience: seq<Byte>, nativeRoute: seq<Byte>,
                               version: seq<Byte>, status: seq<Byte>, weight: int)

  predicate IPv4(svc: Instance) {
    svc.ip.Some? ==> |svc.ip.value| == 4
  }

  // ----- names -----

  type Name = seq<seq<Byte>>

  function TrimDot(s: seq<Byte>): seq<Byte> {
    if s != [] && s[|s| - 1] == DOT then s[..|s| - 1] else s
  }

  /** `strings.Trim(s, ".")`. */
  function TrimDots(s: seq<Byte>): seq<Byte> {
    if s == [] then s
    else if s[0] == DOT then TrimDots(s[1..])
    else if s[|s| - 1] == DOT then TrimDots(s[..|s| - 1])
    else s
  }

  /** `strings.ReplaceAll(s, ".", "-")`. */
  function Undot(s: seq<Byte>): (r: seq<Byte>)
    ensures |r| == |s| && DOT !in r
  {
    seq(|s|, i requires 0 <= i < |s| => if s[i] == DOT then DASH else s[i])
  }

  function ServiceFQDN(cfg: Config): seq<Byte> {
    TrimDot(cfg.serviceType) + [DOT] + TrimDots(TrimDot(cfg.domain)) + [DOT]
  }

  function InstanceName(cfg: Config, svc: Instance): seq<Byte> {
    Undot(if svc.name == [] then svc.id else svc.name) + [DOT] + ServiceFQDN(cfg)
  }

  function HostName(svc: Instance): seq<Byte> {
    Undot(svc.id) + Ascii(".local.")
  }

  function Cut(s: seq<Byte>, n: nat): (r: seq<Byte>)
    ensures |r| <= n
  {
    if |s| > n then s[..n] else s
  }

  function CutAll(ss: seq<seq<Byte>>, n: nat): (r: seq<seq<Byte>>)
    ensures |r| == |ss| && forall i :: 0 <= i < |r| ==> r[i] == Cut(ss[i], n)
  {
    seq(|ss|, i requires 0 <= i < |ss| => Cut(ss[i], n))
  }

  /** The labels that `mustName` writes: none is longer than 63. */
  function Labels(name: seq<Byte>): Name {
    CutAll(Split(TrimDot(name), DOT), 63)
  }

  /** Each string with its length in front, which must fit a byte. */
  function Prefixed(ss: seq<seq<Byte>>): seq<Byte>
    requires forall s :: s in ss ==> |s| < 256
  {
    if ss == [] then [] else [|ss[0]|] + ss[0] + Prefixed(ss[1..])
  }

  lemma PrefixedFrom(ss: seq<seq<Byte>>, i: nat)
    requires i < |ss| && forall k :: 0 <= k < |ss| ==> |ss[k]| < 256
    ensures forall s :: s in ss[i..] || s in ss[i + 1..] ==> |s| < 256
    ensures Prefixed(ss[i..]) == [|ss[i]|] + ss[i] + Prefixed(ss[i + 1..])
  {
    assert ss[i..][0] == ss[i] && ss[i..][1..] == ss[i + 1..];
  }

  lemma PrefixedNone(ss: seq<seq<Byte>>)
    ensures Prefixed(ss[|ss|..]) == []
  {
  }

  function EncodeName(name: seq<Byte>): seq<Byte> {
    Prefixed(Labels(name)) + [0]
  }

  // ----- records -----

  function RR(name: seq<Byte>, typ: int, ttl: int, rdata: seq<Byte>): seq<Byte> {
    EncodeName(name) + U16(typ) + U16(CLASS_IN_FLUSH) + U32(ttl) + U16(|rdata|) + rdata
  }

  function ServiceTXT(svc: Instance): (r: seq<seq<Byte>>)
    ensures |r| == 10
  {
    [Ascii("id=") + svc.id, Ascii("name=") + svc.name, Ascii("scheme=") + svc.scheme, Ascii("prefix=") + svc.prefix,
     Ascii("health=") + svc.healthPath, Ascii("audience=") + svc.audience, Ascii("native_route=") + svc.nativeRoute,
     Ascii("version=") + svc.version, Ascii("status=") + svc.status, Ascii("weight=") + Ascii(Decimal.Itoa(svc.weight))]
  }

  function Address(svc: Instance): seq<Byte> {
    if svc.ip.Some? then svc.ip.value else [127, 0, 0, 1]
  }

  const HEADER: seq<Byte> := [0, 0, 0x84, 0, 0, 0, 0, 4, 0, 0, 0, 0]

  function Announcement(cfg: Config, svc: Instance): seq<Byte> {
    var service, instance, host := ServiceFQDN(cfg), InstanceName(cfg, svc), HostName(svc);
    HEADER
      + RR(service, TYPE_PTR, TTL, EncodeName(instance))
      + RR(instance, TYPE_SRV, TTL, [0, 0, 0, 0] + U16(svc.port) + EncodeName(host))
      + RR(instance, TYPE_TXT, TTL, Prefixed(CutAll(ServiceTXT(svc), 255)))
      + RR(host, TYPE_A, TTL, Address(svc))
  }

  // ----- the encoder, growing one buffer -----

  method MustName(name: seq<Byte>) returns (out: seq<Byte>)
    ensures out == EncodeName(name)
  {
    hide Split, TrimDot, Prefixed, CutAll;
    var labels := Split(TrimDot(name), DOT);
    ghost var cut := CutAll(labels, 63);
    out := [];
    assert cut[0..] == cut;
    for i := 0 to |labels|
      invariant out + Prefixed(cut[i..]) == Prefixed(cut)
    {
      PrefixedFrom(cut, i);
      var part := labels[i];
      if |part| > 63 { part := part[..63]; }
      out := out + [|part|];
      out := out + part;
    }
    assert Prefixed(cut[|labels|..]) == [] by { PrefixedNone(cut); }
    out := out + [0];
  }

  method AppendRRHeader(out: seq<Byte>, name: seq<Byte>, typ: int, ttl: int, rdlen: int) returns (r: seq<Byte>)
    ensures r == out + (EncodeName(name) + U16(typ) + U16(CLASS_IN_FLUSH) + U32(ttl) + U16(rdlen))
  {
    hide EncodeName;
    var encoded := MustName(name);
    r := out + encoded;
    r := r + U16(typ);
    r := r + U16(CLASS_IN_FLUSH);
    r := r + U32(ttl);
    r := r + U16(rdlen);
  }

  method AppendRRName(out: seq<Byte>, name: seq<Byte>, typ: int, ttl: int, target: seq<Byte>) returns (r: seq<Byte>)
    ensures r == out + RR(name, typ, ttl, target)
  {
    hide EncodeName;
    r := AppendRRHeader(out, name, typ, ttl, |target|);
    r := r + target;
  }

  method AppendSRV(out: seq<Byte>, name: seq<Byte>, ttl: int, port: int, host: seq<Byte>) returns (r: seq<Byte>)
    ensures r == out + RR(name, TYPE_SRV, ttl, [0, 0, 0, 0] + U16(port) + EncodeName(host))
  {
    hide EncodeName;
    var target := MustName(host);
    var rdata: seq<Byte> := [0, 0, 0, 0, 0, 0];
    rdata := rdata[4 := U16(port)[0]][5 := U16(port)[1]];
    rdata := rdata + target;
    assert rdata == [0, 0, 0, 0] + U16(port) + target;
    r := AppendRRHeader(out, name, TYPE_SRV, ttl, |rdata|);
    r := r + rdata;
  }

  method AppendTXT(out: seq<Byte>, name: seq<Byte>, ttl: int, txt: seq<seq<Byte>>) returns (r: seq<Byte>)
    ensures r == out + RR(name, TYPE_TXT, ttl, Prefixed(CutAll(txt, 255)))
  {
    hide EncodeName, U16, U32, Prefixed, CutAll;
    ghost var cut := CutAll(txt, 255);
    var rdata: seq<Byte> := [];
    assert cut[0..] == cut;
    for i := 0 to |txt|
      invariant rdata + Prefixed(cut[i..]) == Prefixed(cut)
    {
      PrefixedFrom(cut, i);
      var entry := txt[i];
      if |entry| > 255 { entry := entry[..255]; }
      rdata := rdata + [|entry|];
      rdata := rdata + entry;
    }
    assert Prefixed(cut[|txt|..]) == [] by { PrefixedNone(cut); }
    r := AppendRRHeader(out, name, TYPE_TXT, ttl, |rdata|);
    r := r + rdata;
  }

  method AppendA(out: seq<Byte>, name: seq<Byte>, ttl: int, ip: seq<Byte>) returns (r: seq<Byte>)
    requires |ip| == 4
    ensures r == out + RR(name, TYPE_A, ttl, ip)
  {
    hide EncodeName;
    r := AppendRRHeader(out, name, TYPE_A, ttl, 4);
    r := r + ip;
  }

  method BuildAnnouncement(cfg: Config, svc: Instance) returns (out: seq<Byte>)
    requires IPv4(svc)
    ensures out == Announcement(cfg, svc)
  {
    hide RR, ServiceTXT;
    var service := ServiceFQDN(cfg);
    var instance := InstanceName(cfg, svc);
    var host := HostName(svc);
    var ip := if svc.ip.Some? then svc.ip.value else [127, 0, 0, 1];
    out := HEADER;
    var target := MustName(instance);
    out := AppendRRName(out, service, TYPE_PTR, TTL, target);
    out := AppendSRV(out, instance, TTL, svc.port, host);
    out := AppendTXT(out, instance, TTL, ServiceTXT(svc));
    out := AppendA(out, host, TTL, ip);
  }

  // ----- a decoder after sections 3.1, 3.2.1 and 4.1.1 of RFC 1035 -----

  datatype RData = PTR(target: Name)
                 | SRV(priority: int, weight: int, port: int, srvTarget: Name)
                 | TXT(strings: seq<seq<Byte>>)
                 | A(address: seq<Byte>)
                 | Other(bytes: seq<Byte>)
  datatype Record = Record(name: Name, class_: int, ttl: int, data: RData)
  datatype Message = Message(id: int, flags: int, answers: seq<Record>)

  /** Labels of 1 to 63 octets up to the root; pointers are not followed. */
  function TakeLabels(b: seq<Byte>): Option<(Name, seq<Byte>)>
    decreases |b|
  {
    if b == [] || b[0] > 63 || |b| < 1 + (b[0] as int) then None
    else if b[0] == 0 then Some(([], b[1..]))
    else
      var tail := TakeLabels(b[1 + (b[0] as int)..]);
      if tail.None? then None else Some(([b[1..1 + (b[0] as int)]] + tail.value.0, tail.value.1))
  }

  function WireLength(name: Name): nat {
    if name == [] then 1 else 1 + |name[0]| + WireLength(name[1..])
  }

  function TakeName(b: seq<Byte>): Option<(Name, seq<Byte>)> {
    var r := TakeLabels(b);
    if r.Some? && WireLength(r.value.0) <= 255 then r else None
  }

  function DecodeStrings(b: seq<Byte>): Option<seq<seq<Byte>>>
    decreases |b|
  {
    if b == [] then Some([])
    else if |b| < 1 + (b[0] as int) then None
    else
      var tail := DecodeStrings(b[1 + (b[0] as int)..]);
      if tail.None? then None else Some([b[1..1 + (b[0] as int)]] + tail.value)
  }

  /** Record data; a name must fill what is left of it exactly. */
  function DecodeData(typ: int, b: seq<Byte>): Option<RData> {
    if typ == TYPE_PTR then
      var n := TakeName(b);
      if n.Some? && n.value.1 == [] then Some(PTR(n.value.0)) else None
    else if typ == TYPE_SRV then
      if |b| < 6 then None
      else
        var n := TakeName(b[6..]);
        if n.Some? && n.value.1 == [] then Some(SRV(Value16(b[0], b[1]), Value16(b[2], b[3]), Value16(b[4], b[5]), n.value.0)) else None
    else if typ == TYPE_TXT then
      var ss := DecodeStrings(b);
      if ss.Some? then Some(TXT(ss.value)) else None
    else if typ == TYPE_A then if |b| == 4 then Some(A(b)) else None
    else Some(Other(b))
  }

  function TakeRecord(b: seq<Byte>): Option<(Record, seq<Byte>)> {
    var name := TakeName(b);
    if name.None? then None
    else
      var typ := Take16(name.value.1);
      if typ.None? then None
      else
        var class_ := Take16(typ.value.1);
        if class_.None? then None
        else
          var ttl := Take32(class_.value.1);
          if ttl.None? then None
          else
            var rdlength := Take16(ttl.value.1);
            if rdlength.None? || |rdlength.value.1| < rdlength.value.0 then None
            else
              var data := DecodeData(typ.value.0, rdlength.value.1[..rdlength.value.0]);
              if data.None? then None
              else Some((Record(name.value.0, class_.value.0, ttl.value.0, data.value), rdlength.value.1[rdlength.value.0..]))
  }

  function TakeRecords(n: nat, b: seq<Byte>): Option<(seq<Record>, seq<Byte>)> {
    if n == 0 then Some(([], b))
    else
      var first := TakeRecord(b);
      if first.None? then None
      else
        var rest := TakeRecords(n - 1, first.value.1);
        if rest.None? then None else Some(([first.value.0] + rest.value.0, rest.value.1))
  }

  /** A message with answers only, all of its octets accounted for. */
  function Decode(b: seq<Byte>): Option<Message> {
    if |b| < 12 || b[4] != 0 || b[5] != 0 || b[8..12] != [0, 0, 0, 0] then None
    else
      var answers := TakeRecords(Value16(b[6], b[7]), b[12..]);
      if answers.Some? && answers.value.1 == [] then Some(Message(Value16(b[0], b[1]), Value16(b[2], b[3]), answers.value.0)) else None
  }

  // ----- round trip -----

  predicate LabelsOk(name: Name) {
    forall i :: 0 <= i < |name| ==> 1 <= |name[i]| <= 63
  }

  predicate NameOk(name: Name) {
    LabelsOk(name) && WireLength(name) <= 255
  }

  lemma {:induction false} TakeLabelsOf(name: Name, rest: seq<Byte>)
    requires LabelsOk(name)
    ensures forall s :: s in name ==> |s| < 256
    ensures TakeLabels(Prefixed(name) + [0] + rest) == Some((name, rest))
    ensures |Prefixed(name) + [0]| == WireLength(name)
  {
    assert forall s :: s in name ==> |s| < 256;
    var b := Prefixed(name) + [0] + rest;
    if name == [] {
      assert b == [0] + rest;
    } else {
      TakeLabelsOf(name[1..], rest);
      assert b == [|name[0]|] + name[0] + (Prefixed(name[1..]) + [0] + rest);
      assert b[1 + (b[0] as int)..] == Prefixed(name[1..]) + [0] + rest;
      assert b[1..1 + (b[0] as int)] == name[0];
      assert [name[0]] + name[1..] == name;
    }
  }

  lemma {:induction false} TakenLabelsOk(b: seq<Byte>)
    requires TakeLabels(b).Some?
    ensures LabelsOk(TakeLabels(b).value.0)
    decreases |b|
  {
    if b[0] != 0 { TakenLabelsOk(b[1 + (b[0] as int)..]); }
  }

  lemma {:induction false} DecodeStringsOf(ss: seq<seq<Byte>>)
    requires forall s :: s in ss ==> |s| < 256
    ensures DecodeStrings(Prefixed(ss)) == Some(ss)
    ensures |Prefixed(ss)| <= 256 * |ss|
  {
    if ss != [] {
      var b := Prefixed(ss);
      DecodeStringsOf(ss[1..]);
      assert b == [|ss[0]|] + ss[0] + Prefixed(ss[1..]);
      assert b[1 + (b[0] as int)..] == Prefixed(ss[1..]);
      assert b[1..1 + (b[0] as int)] == ss[0];
      assert [ss[0]] + ss[1..] == ss;
    }
  }

  lemma TakeNameOf(name: seq<Byte>, rest: seq<Byte>)
    requires NameOk(Labels(name))
    ensures TakeName(EncodeName(name) + rest) == Some((Labels(name), rest)) && |EncodeName(name)| <= 255
  {
    hide Labels;
    TakeLabelsOf(Labels(name), rest);
  }

  /** A record whose name is well formed decodes, with exactly its own data. */
  lemma TakeRecordOf(name: seq<Byte>, typ: int, ttl: int, rdata: seq<Byte>, data: RData, rest: seq<Byte>)
    requires NameOk(Labels(name)) && 0 <= typ < 65536 && 0 <= ttl < 0x1_0000_0000 && |rdata| < 65536
    requires DecodeData(typ, rdata) == Some(data)
    ensures TakeRecord(RR(name, typ, ttl, rdata) + rest) == Some((Record(Labels(name), CLASS_IN_FLUSH, ttl, data), rest))
  {
    hide EncodeName, Labels, TakeName, Take16, Take32, U16, DecodeData;
    var b5 := rdata + rest;
    var b4 := U16(|rdata|) + b5;
    var b3 := U32(ttl) + b4;
    var b2 := U16(CLASS_IN_FLUSH) + b3;
    var b1 := U16(typ) + b2;
    assert RR(name, typ, ttl, rdata) + rest == EncodeName(name) + b1;
    TakeNameOf(name, b1);
    Take16Of(typ, b2);
    Take16Of(CLASS_IN_FLUSH, b3);
    Take32Of(ttl, b4);
    Take16Of(|rdata|, b5);
    assert b5[..|rdata|] == rdata && b5[|rdata|..] == rest;
  }

  function Intended(cfg: Config, svc: Instance): Message {
    var service, instance, host := Labels(ServiceFQDN(cfg)), Labels(InstanceName(cfg, svc)), Labels(HostName(svc));
    Message(0, 0x8400, [
      Record(service, CLASS_IN_FLUSH, TTL, PTR(instance)),
      Record(instance, CLASS_IN_FLUSH, TTL, SRV(0, 0, svc.port, host)),
      Record(instance, CLASS_IN_FLUSH, TTL, TXT(CutAll(ServiceTXT(svc), 255))),
      Record(host, CLASS_IN_FLUSH, TTL, A(Address(svc)))])
  }

  /** What the configuration and the service must satisfy: names without empty labels and at most 255
      octets long, and a port that fits 16 bits. */
  predicate Encodable(cfg: Config, svc: Instance) {
    && NameOk(Labels(ServiceFQDN(cfg))) && NameOk(Labels(InstanceName(cfg, svc))) && NameOk(Labels(HostName(svc)))
    && 0 <= svc.port < 65536
  }

  lemma DecodePTR(name: seq<Byte>)
    requires NameOk(Labels(name))
    ensures DecodeData(TYPE_PTR, EncodeName(name)) == Some(PTR(Labels(name)))
  {
    hide Labels;
    TakeNameOf(name, []);
    assert EncodeName(name) + [] == EncodeName(name);
  }

  lemma SRVFields(b: seq<Byte>, target: Name)
    requires |b| >= 6 && TakeName(b[6..]) == Some((target, []))
    ensures DecodeData(TYPE_SRV, b) == Some(SRV(Value16(b[0], b[1]), Value16(b[2], b[3]), Value16(b[4], b[5]), target))
  {
  }

  lemma SRVBytes(port: int, rest: seq<Byte>)
    ensures var b := [0, 0, 0, 0] + U16(port) + rest;
      b[0] == b[1] == b[2] == b[3] == 0 && b[4] == U16(port)[0] && b[5] == U16(port)[1] && b[6..] == rest
  {
  }

  lemma NoValue()
    ensures Value16(0, 0) == 0
  {
  }

  lemma PortBytes(port: int)
    ensures Value16(U16(port)[0], U16(port)[1]) == port % 65536
  {
    Value16Of(port);
  }

  lemma DecodeSRV(port: int, name: seq<Byte>)
    requires NameOk(Labels(name))
    ensures DecodeData(TYPE_SRV, [0, 0, 0, 0] + U16(port) + EncodeName(name)) == Some(SRV(0, 0, port % 65536, Labels(name)))
  {
    hide Labels;
    TakeNameOf(name, []);
    assert EncodeName(name) + [] == EncodeName(name);
    SRVBytes(port, EncodeName(name));
    SRVFields([0, 0, 0, 0] + U16(port) + EncodeName(name), Labels(name));
    NoValue();
    PortBytes(port);
  }

  lemma DecodeTXT(txt: seq<seq<Byte>>)
    requires |txt| <= 255
    ensures DecodeData(TYPE_TXT, Prefixed(CutAll(txt, 255))) == Some(TXT(CutAll(txt, 255))) && |Prefixed(CutAll(txt, 255))| < 65536
  {
    DecodeStringsOf(CutAll(txt, 255));
  }

  lemma TakeRecordsMore(n: nat, first: seq<Byte>, r: Record, more: seq<Byte>, rs: seq<Record>)
    requires TakeRecord(first + more) == Some((r, more)) && TakeRecords(n, more) == Some((rs, []))
    ensures TakeRecords(n + 1, first + more) == Some(([r] + rs, []))
  {
    hide TakeRecord;
  }

  lemma TakenNameOk(b: seq<Byte>)
    requires TakeName(b).Some?
    ensures NameOk(TakeName(b).value.0)
  {
    TakenLabelsOk(b);
  }

  lemma DecodedDataOk(typ: int, b: seq<Byte>)
    requires DecodeData(typ, b).Some?
    ensures DataOk(DecodeData(typ, b).value)
  {
    if typ == TYPE_PTR { TakenNameOk(b); }
    if typ == TYPE_SRV { TakenNameOk(b[6..]); }
  }

  /** The decoder accepts only well-formed names and 16-bit ports. */
  lemma TakenRecordOk(b: seq<Byte>)
    requires TakeRecord(b).Some?
    ensures RecordOk(TakeRecord(b).value.0)
  {
    hide DecodeData;
    TakenNameOk(b);
    var typ := Take16(TakeName(b).value.1);
    var ttl := Take32(Take16(typ.value.1).value.1);
    var rdlength := Take16(ttl.value.1).value;
    DecodedDataOk(typ.value.0, rdlength.1[..rdlength.0]);
  }

  predicate DataOk(d: RData) {
    && (d.PTR? ==> NameOk(d.target))
    && (d.SRV? ==> NameOk(d.srvTarget) && 0 <= d.port < 65536)
  }

  predicate RecordOk(r: Record) {
    NameOk(r.name) && DataOk(r.data)
  }

  lemma {:induction false} TakenRecordsOk(n: nat, b: seq<Byte>)
    requires TakeRecords(n, b).Some?
    ensures forall r :: r in TakeRecords(n, b).value.0 ==> RecordOk(r)
  {
    hide TakeRecord, RecordOk;
    if n > 0 {
      TakenRecordOk(b);
      TakenRecordsOk(n - 1, TakeRecord(b).value.1);
    }
  }

  lemma AnswersDecode(cfg: Config, svc: Instance)
    requires IPv4(svc) && Encodable(cfg, svc)
    ensures TakeRecords(4, Announcement(cfg, svc)[12..]) == Some((Intended(cfg, svc).answers, []))
  {
    hide RR, Labels, EncodeName, TakeRecord, Prefixed, ServiceTXT, ServiceFQDN, InstanceName, HostName, U16, DecodeData, NameOk, TakeRecords;
    var service, instance, host := ServiceFQDN(cfg), InstanceName(cfg, svc), HostName(svc);
    var srv, txt := [0, 0, 0, 0] + U16(svc.port) + EncodeName(host), Prefixed(CutAll(ServiceTXT(svc), 255));
    var b1 := RR(service, TYPE_PTR, TTL, EncodeName(instance));
    var b2 := RR(instance, TYPE_SRV, TTL, srv);
    var b3 := RR(instance, TYPE_TXT, TTL, txt);
    var b4 := RR(host, TYPE_A, TTL, Address(svc));
    assert Announcement(cfg, svc)[12..] == b1 + (b2 + (b3 + (b4 + [])));
    DecodePTR(instance);
    DecodeSRV(svc.port, host);
    DecodeTXT(ServiceTXT(svc));
    TakeNameOf(instance, []);
    TakeNameOf(host, []);
    assert DecodeData(TYPE_A, Address(svc)) == Some(A(Address(svc))) by { AddressDecodes(svc); }
    TakeRecordOf(service, TYPE_PTR, TTL, EncodeName(instance), PTR(Labels(instance)), b2 + (b3 + (b4 + [])));
    TakeRecordOf(instance, TYPE_SRV, TTL, srv, SRV(0, 0, svc.port, Labels(host)), b3 + (b4 + []));
    TakeRecordOf(instance, TYPE_TXT, TTL, txt, TXT(CutAll(ServiceTXT(svc), 255)), b4 + []);
    TakeRecordOf(host, TYPE_A, TTL, Address(svc), A(Address(svc)), []);
    var rs := Intended(cfg, svc).answers;
    assert TakeRecords(0, []) == Some(([], [])) by { NoRecords([]); }
    TakeRecordsMore(0, b4, rs[3], [], []);
    assert [rs[3]] + [] == [rs[3]];
    TakeRecordsMore(1, b3, rs[2], b4 + [], [rs[3]]);
    TakeRecordsMore(2, b2, rs[1], b3 + (b4 + []), [rs[2]] + [rs[3]]);
    TakeRecordsMore(3, b1, rs[0], b2 + (b3 + (b4 + [])), [rs[1]] + ([rs[2]] + [rs[3]]));
    assert rs == [rs[0]] + ([rs[1]] + ([rs[2]] + [rs[3]]));
  }

  lemma NoRecords(b: seq<Byte>)
    ensures TakeRecords(0, b) == Some(([], b))
  {
  }

  lemma AddressDecodes(svc: Instance)
    requires IPv4(svc)
    ensures DecodeData(TYPE_A, Address(svc)) == Some(A(Address(svc)))
  {
  }

  lemma HeaderFields(cfg: Config, svc: Instance)
    ensures var b := Announcement(cfg, svc);
      && |b| >= 12 && b[0] == 0 && b[1] == 0 && b[2] == 0x84 && b[3] == 0 && b[4] == 0 && b[5] == 0 && b[6] == 0 && b[7] == 4
      && b[8..12] == [0, 0, 0, 0]
  {
    hide RR, EncodeName, ServiceTXT, HostName, U16;
    var b := Announcement(cfg, svc);
    assert b[..12] == HEADER;
    assert b[8..12] == HEADER[8..12] == [0, 0, 0, 0];
  }

  lemma DecodedIsEncodable(cfg: Config, svc: Instance)
    requires Decode(Announcement(cfg, svc)) == Some(Intended(cfg, svc))
    ensures Encodable(cfg, svc)
  {
    hide Announcement, TakeRecords, ServiceTXT, ServiceFQDN, NameOk;
    HeaderFields(cfg, svc);
    TakenRecordsOk(4, Announcement(cfg, svc)[12..]);
    var rs := Intended(cfg, svc).answers;
    assert RecordOk(rs[0]) && RecordOk(rs[1]);
  }

  /** The announcement decodes, to its last byte, to the four records it stands for, exactly when
      every name has no empty label and fits 255 octets and the port fits 16 bits. */
  lemma AnnouncementDecodes(cfg: Config, svc: Instance)
    requires IPv4(svc)
    ensures Decode(Announcement(cfg, svc)) == Some(Intended(cfg, svc)) <==> Encodable(cfg, svc)
  {
    hide Announcement, TakeRecords, ServiceTXT, NameOk;
    HeaderFields(cfg, svc);
    if Encodable(cfg, svc) { AnswersDecode(cfg, svc); }
    if Decode(Announcement(cfg, svc)) == Some(Intended(cfg, svc)) { DecodedIsEncodable(cfg, svc); }
  }

  // ----- the default configuration -----

  const DEFAULT_CONFIG := Config(Ascii("_saker._tcp"), Ascii("local."))

  lemma SplitTwo(a: seq<Byte>, b: seq<Byte>)
    requires DOT !in a && DOT !in b
    ensures Split(a + [DOT] + b, DOT) == [a, b]
  {
    SplitFirst(a, DOT, b);
    SplitWhole(b, DOT);
  }

  lemma DefaultServiceName()
    ensures ServiceFQDN(DEFAULT_CONFIG) == Ascii("_saker._tcp.local.")
    ensures Split(Ascii("_saker._tcp.local"), DOT) == [Ascii("_saker"), Ascii("_tcp"), Ascii("local")]
  {
    var d := Ascii("local.");
    assert TrimDot(d) == Ascii("local") == TrimDots(Ascii("local"));
    assert Ascii("_saker._tcp.local.") == Ascii("_saker._tcp") + [DOT] + Ascii("local") + [DOT];
    assert Ascii("_saker._tcp.local") == Ascii("_saker") + [DOT] + (Ascii("_tcp") + [DOT] + Ascii("local"));
    SplitFirst(Ascii("_saker"), DOT, Ascii("_tcp") + [DOT] + Ascii("local"));
    SplitTwo(Ascii("_tcp"), Ascii("local"));
  }

  const DEFAULT_SERVICE: Name := [Ascii("_saker"), Ascii("_tcp"), Ascii("local")]

  lemma DefaultServiceLabels()
    ensures Split(TrimDot(ServiceFQDN(DEFAULT_CONFIG)), DOT) == DEFAULT_SERVICE == Labels(ServiceFQDN(DEFAULT_CONFIG))
  {
    hide ServiceFQDN;
    DefaultServiceName();
    var fqdn := Ascii("_saker._tcp.local.");
    assert TrimDot(fqdn) == Ascii("_saker._tcp.local");
  }

  lemma DottedLabels(first: seq<Byte>, rest: seq<Byte>)
    requires DOT !in first && rest != []
    ensures Labels(first + [DOT] + rest) == [Cut(first, 63)] + Labels(rest)
  {
    assert (first + [DOT] + rest)[..|first + [DOT] + rest| - 1] == first + [DOT] + rest[..|rest| - 1];
    assert TrimDot(first + [DOT] + rest) == first + [DOT] + TrimDot(rest);
    SplitFirst(first, DOT, TrimDot(rest));
  }

  lemma LocalLabels()
    ensures Labels(Ascii("local.")) == [Ascii("local")]
  {
    assert TrimDot(Ascii("local.")) == Ascii("local");
    SplitWhole(Ascii("local"), DOT);
  }

  lemma DefaultLengths(first: seq<Byte>)
    ensures NameOk(DEFAULT_SERVICE)
    ensures NameOk([Cut(first, 63)] + DEFAULT_SERVICE) <==> first != []
    ensures NameOk([Cut(first, 63)] + [Ascii("local")]) <==> first != []
  {
    hide Ascii;
    var cut := Cut(first, 63);
    var more := [cut] + DEFAULT_SERVICE;
    assert more[1..] == DEFAULT_SERVICE && more[0] == cut;
    assert DEFAULT_SERVICE[1..] == [Ascii("_tcp"), Ascii("local")];
    assert [Ascii("_tcp"), Ascii("local")][1..] == [Ascii("local")];
    assert WireLength(DEFAULT_SERVICE) == 1 + 6 + WireLength([Ascii("_tcp"), Ascii("local")]);
    assert WireLength([Ascii("local")]) == 7;
    assert ([cut] + [Ascii("local")])[1..] == [Ascii("local")];
    assert WireLength([Ascii("_tcp"), Ascii("local")]) == 5 + 7;
    assert LabelsOk([cut] + [Ascii("local")]) ==> 1 <= |([cut] + [Ascii("local")])[0]|;
  }

  /** With the default configuration nothing but a missing identifier or an out-of-range port can
      stop an announcement from decoding. */
  lemma DefaultEncodable(svc: Instance)
    ensures Encodable(DEFAULT_CONFIG, svc) <==> svc.id != [] && 0 <= svc.port < 65536
  {
    hide NameOk;
    DefaultServiceLabels();
    var first, fqdn := Undot(if svc.name == [] then svc.id else svc.name), ServiceFQDN(DEFAULT_CONFIG);
    DottedName(svc);
    DottedLabels(first, fqdn);
    DottedLabels(Undot(svc.id), Ascii("local."));
    LocalLabels();
    DefaultLengths(first);
    DefaultLengths(Undot(svc.id));
  }

  lemma DottedName(svc: Instance)
    ensures HostName(svc) == Undot(svc.id) + [DOT] + Ascii("local.") && ServiceFQDN(DEFAULT_CONFIG) != []
  {
  }

  // ----- names under any configuration -----

  lemma {:induction false} TrimDotsExactly(s: seq<Byte>) returns (i: nat, j: nat)
    ensures i <= j <= |s| && TrimDots(s) == s[i..j]
    ensures (forall k :: 0 <= k < i ==> s[k] == 46) && (forall k :: j <= k < |s| ==> s[k] == 46) && (i < j ==> s[i] != 46 && s[j - 1] != 46)
    decreases |s|
  {
    if s == [] {
      i, j := 0, 0;
    } else if s[0] == DOT {
      i, j := TrimDotsExactly(s[1..]);
      i, j := i + 1, j + 1;
    } else if s[|s| - 1] == DOT {
      i, j := TrimDotsExactly(s[..|s| - 1]);
    } else {
      i, j := 0, |s|;
    }
  }

  lemma {:induction false} SplitDotted(a: seq<Byte>, b: seq<Byte>)
    ensures Split(a + [DOT] + b, DOT) == Split(a, DOT) + Split(b, DOT)
    decreases |a|
  {
    var s, tail := a + [DOT] + b, Split(b, DOT);
    if a == [] {
      assert s[1..] == b;
    } else {
      assert s[1..] == a[1..] + [DOT] + b && s[0] == a[0];
      SplitDotted(a[1..], b);
      var rest := Split(a[1..], DOT);
      if a[0] == DOT {
        AppendAssociates([[]], rest, tail);
      } else {
        assert (rest + tail)[0] == rest[0] && (rest + tail)[1..] == rest[1..] + tail;
        AppendAssociates([[a[0]] + rest[0]], rest[1..], tail);
      }
    }
  }

  /** The labels of a service are those of its type without a final dot and of its domain without outer
      dots, each up to 63; an instance has its own label in front. */
  lemma ServiceLabels(cfg: Config, svc: Instance)
    ensures var service := if cfg.serviceType != [] && cfg.serviceType[|cfg.serviceType| - 1] == 46
                           then cfg.serviceType[..|cfg.serviceType| - 1] else cfg.serviceType;
      Labels(ServiceFQDN(cfg)) == CutAll(Split(service, DOT) + Split(TrimDots(TrimDot(cfg.domain)), DOT), 63)
    ensures Labels(InstanceName(cfg, svc)) == [Cut(Undot(if svc.name == [] then svc.id else svc.name), 63)] + Labels(ServiceFQDN(cfg))
  {
    hide Split, Undot, Ascii;
    var a, b := TrimDot(cfg.serviceType), TrimDots(TrimDot(cfg.domain));
    assert ServiceFQDN(cfg) == a + [DOT] + b + [DOT];
    assert TrimDot(a + [DOT] + b + [DOT]) == a + [DOT] + b;
    SplitDotted(a, b);
    DottedLabels(Undot(if svc.name == [] then svc.id else svc.name), ServiceFQDN(cfg));
  }

  /** The bytes of a label: those of the name, dots as dashes, up to 63. */
  predicate IsLabel(part: seq<Byte>, name: seq<Byte>) {
    && |part| == (if |name| < 63 then |name| else 63)
    && forall i :: 0 <= i < |part| ==> part[i] == if name[i] == 46 then 45 else name[i]
  }

  predicate IsText(text: seq<Byte>, key: string, value: seq<Byte>) {
    var whole := Ascii(key) + Ascii("=") + value;
    |text| == (if |whole| < 255 then |whole| else 255) && text <= whole
  }

  lemma TextIs(prefix: string, key: string, value: seq<Byte>)
    requires prefix == key + "="
    ensures IsText(Cut(Ascii(prefix) + value, 255), key, value)
  {
    assert Ascii(prefix) == Ascii(key) + Ascii("=");
  }

  /** The ten texts of an instance. */
  predicate AreTexts(texts: seq<seq<Byte>>, svc: Instance) {
    && |texts| == 10
    && IsText(texts[0], "id", svc.id) && IsText(texts[1], "name", svc.name) && IsText(texts[2], "scheme", svc.scheme)
    && IsText(texts[3], "prefix", svc.prefix) && IsText(texts[4], "health", svc.healthPath) && IsText(texts[5], "audience", svc.audience)
    && IsText(texts[6], "native_route", svc.nativeRoute) && IsText(texts[7], "version", svc.version) && IsText(texts[8], "status", svc.status)
    && IsText(texts[9], "weight", Ascii(Decimal.Itoa(svc.weight)))
  }

  lemma TextsAre(svc: Instance)
    ensures AreTexts(CutAll(ServiceTXT(svc), 255), svc)
  {
    hide IsText, Ascii, Cut;
    TextIs("id=", "id", svc.id);
    TextIs("name=", "name", svc.name);
    TextIs("scheme=", "scheme", svc.scheme);
    TextIs("prefix=", "prefix", svc.prefix);
    TextIs("health=", "health", svc.healthPath);
    TextIs("audience=", "audience", svc.audience);
    TextIs("native_route=", "native_route", svc.nativeRoute);
    TextIs("version=", "version", svc.version);
    TextIs("status=", "status", svc.status);
    TextIs("weight=", "weight", Ascii(Decimal.Itoa(svc.weight)));
  }

  lemma LabelIs(name: seq<Byte>)
    ensures IsLabel(Cut(Undot(name), 63), name)
  {
  }

  lemma NamesAre(svc: Instance)
    ensures var name := if svc.name == [] then svc.id else svc.name;
      && Labels(ServiceFQDN(DEFAULT_CONFIG)) == DEFAULT_SERVICE
      && Labels(InstanceName(DEFAULT_CONFIG, svc)) == [Cut(Undot(name), 63)] + DEFAULT_SERVICE
      && Labels(HostName(svc)) == [Cut(Undot(svc.id), 63)] + [Ascii("local")]
  {
    hide ServiceFQDN, Labels, Undot, Ascii;
    DefaultServiceLabels();
    DottedName(svc);
    DottedLabels(Undot(if svc.name == [] then svc.id else svc.name), ServiceFQDN(DEFAULT_CONFIG));
    DottedLabels(Undot(svc.id), Ascii("local."));
    LocalLabels();
  }

  /** What the network hears of an instance under the default configuration: its service type points to
      its name, the name to host and port, and the ten texts and the address are its own. */
  lemma DefaultAnnouncement(svc: Instance) returns (inst: seq<Byte>, host: seq<Byte>, texts: seq<seq<Byte>>)
    requires IPv4(svc) && svc.id != [] && 0 <= svc.port < 65536
    ensures IsLabel(inst, if svc.name == [] then svc.id else svc.name) && IsLabel(host, svc.id) && AreTexts(texts, svc)
    ensures var local := [Ascii("_saker"), Ascii("_tcp"), Ascii("local")];
      Decode(Announcement(DEFAULT_CONFIG, svc)) == Some(Message(0, 0x8400, [
        Record(local, 0x8001, 120, PTR([inst] + local)),
        Record([inst] + local, 0x8001, 120, SRV(0, 0, svc.port, [host] + [Ascii("local")])),
        Record([inst] + local, 0x8001, 120, TXT(texts)),
        Record([host] + [Ascii("local")], 0x8001, 120, A(if svc.ip.Some? then svc.ip.value else [127, 0, 0, 1]))]))
  {
    hide Announcement, Decode, ServiceFQDN, InstanceName, HostName, Encodable, Labels, ServiceTXT, AreTexts, IsLabel, Undot, Ascii, Cut, CutAll;
    DefaultEncodable(svc);
    AnnouncementDecodes(DEFAULT_CONFIG, svc);
    NamesAre(svc);
    TextsAre(svc);
    var name := if svc.name == [] then svc.id else svc.name;
    LabelIs(name);
    LabelIs(svc.id);
    inst, host, texts := Cut(Undot(name), 63), Cut(Undot(svc.id), 63), CutAll(ServiceTXT(svc), 255);
  }
}
