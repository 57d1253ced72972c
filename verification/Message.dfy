/** The fixed-width message: what `create_message` lays out and what the SQL code reads back. */
module Message {
  import opened Text

  /** MD5 stays uninterpreted: any function whose results are 32 characters long. */
  type Digest = d: Bytes | |d| == 32 witness Spaces(32)
  type Md5 = Bytes -> Digest

  type Uuid = u: Bytes | |u| == 36 witness Spaces(36)

  /** 'YYYY-MM-DD HH24:MI:SS.US'. */
  type Stamp = s: Bytes | |s| == 26 witness Spaces(26)

  const TYPE_SINGLE: Bytes := [ZERO + 1]
  const TYPE_CHUNK: Bytes := [ZERO + 2]
  const TYPE_INFO: Bytes := [ZERO + 3]
  const TYPE_REQUEST: Bytes := [ZERO + 4]
  const TYPE_REPLY: Bytes := [ZERO + 5]

  lemma TypeDigits()
    ensures LPad(TYPE_REQUEST, 5)[4] == ZERO + 4 && LPad(TYPE_REPLY, 5)[4] == ZERO + 5
    ensures LPad(TYPE_SINGLE, 5)[4] == ZERO + 1 && LPad(TYPE_CHUNK, 5)[4] == ZERO + 2
    ensures LPad(TYPE_INFO, 5)[4] == ZERO + 3
  {
  }

  lemma TypesDifferent()
    ensures LPad(TYPE_REPLY, 5) != LPad(TYPE_REQUEST, 5)
    ensures LPad(TYPE_SINGLE, 5) != LPad(TYPE_REQUEST, 5) && LPad(TYPE_SINGLE, 5) != LPad(TYPE_REPLY, 5)
    ensures LPad(TYPE_CHUNK, 5) != LPad(TYPE_REQUEST, 5) && LPad(TYPE_CHUNK, 5) != LPad(TYPE_REPLY, 5)
    ensures LPad(TYPE_INFO, 5) != LPad(TYPE_REQUEST, 5) && LPad(TYPE_INFO, 5) != LPad(TYPE_REPLY, 5)
    ensures LPad(TYPE_CHUNK, 5) != LPad(TYPE_INFO, 5)
  {
    TypeDigits();
  }

  /** Bytes before the subheader: md5, uuid, four five-byte fields and the time stamp. */
  const HEADER := 114

  /** The room for data in one message buffer. */
  const MESSAGE_SIZE := 1024 * 128

  /** The size of the consensus messages of types 4 and 5. */
  const CONSENSUS_SIZE := 147

  /** The fixed fields between the hash and the subheader, each `lpad`ded to five bytes. */
  function Fixed(uuid: Bytes, kind: Bytes, source: Bytes, dest: Bytes, priority: Bytes, now: Bytes): Bytes {
    uuid + LPad(kind, 5) + LPad(source, 5) + LPad(dest, 5) + LPad(priority, 5) + now
  }

  function CreateMessage(h: Md5, uuid: Bytes, kind: Bytes, sub: Bytes, body: Bytes,
                         source: Bytes, dest: Bytes, priority: Bytes, now: Bytes, capacity: int): Bytes {
    var text := Fixed(uuid, kind, source, dest, priority, now) + sub + body;
    var difference := capacity - 32 - |text|;
    var padded := if difference > 0 then text + LPad([], difference) else text;
    h(padded) + padded
  }

  predicate HashOk(h: Md5, m: Bytes) {
    Substr(m, 1, 32) == h(if |m| <= 32 then [] else m[32..])
  }

  function IdField(m: Bytes): Bytes { Substr(m, 33, 36) }
  function TypeField(m: Bytes): Bytes { Substr(m, 69, 5) }
  function SourceField(m: Bytes): Bytes { Substr(m, 74, 5) }
  function DestField(m: Bytes): Bytes { Substr(m, 79, 5) }
  function PriorityField(m: Bytes): Bytes { Substr(m, 84, 5) }
  function StampField(m: Bytes): Bytes { Substr(m, 89, 26) }

  /** The message says who sends what to whom, how urgently and when. */
  predicate Carries(m: Bytes, source: Bytes, dest: Bytes, priority: Bytes, now: Bytes) {
    && SourceField(m) == LPad(source, 5) && DestField(m) == LPad(dest, 5)
    && PriorityField(m) == LPad(priority, 5) && StampField(m) == now
  }

  lemma FixedFields(uuid: Uuid, kind: Bytes, source: Bytes, dest: Bytes, priority: Bytes, now: Stamp)
    ensures var f := Fixed(uuid, kind, source, dest, priority, now);
            && |f| == 82
            && f[0..36] == uuid && f[36..41] == LPad(kind, 5) && f[41..46] == LPad(source, 5)
            && f[46..51] == LPad(dest, 5) && f[51..56] == LPad(priority, 5) && f[56..82] == now
  {
    hide LPad;
  }

  /** A field inside a slice of `m` is found at the slice's position plus its own. */
  lemma SubSlice(m: Bytes, at: nat, part: Bytes, offset: nat, n: nat)
    requires at + |part| <= |m| && m[at..at + |part|] == part
    requires offset + n <= |part|
    ensures Substr(m, at + offset + 1, n) == part[offset..offset + n]
  {
    var got, want := m[at + offset..at + offset + n], part[offset..offset + n];
    forall i | 0 <= i < n
      ensures got[i] == want[i]
    {
      assert m[at..at + |part|][offset + i] == m[at + (offset + i)];
    }
    assert got == want;
  }

  lemma Slices(g: Bytes, f: Bytes, sub: Bytes, body: Bytes, pad: Bytes)
    ensures var m := g + (f + sub + body + pad);
            && |m| == |g| + |f| + |sub| + |body| + |pad|
            && m[..|g|] == g && m[|g|..] == f + sub + body + pad
            && m[|g|..|g| + |f|] == f
            && m[|g| + |f|..|g| + |f| + |sub|] == sub
            && m[|g| + |f| + |sub|..|g| + |f| + |sub| + |body|] == body
            && m[|g| + |f| + |sub| + |body|..] == pad
  {
  }

  /** Every field `create_message` writes is the field the parsers read; the result carries its own
      hash and is exactly `capacity` bytes long unless the contents alone are longer, with blanks behind them. */
  lemma Layout(h: Md5, uuid: Uuid, kind: Bytes, sub: Bytes, body: Bytes,
               source: Bytes, dest: Bytes, priority: Bytes, now: Stamp, capacity: int)
    ensures var m := CreateMessage(h, uuid, kind, sub, body, source, dest, priority, now, capacity);
            && |m| == (if capacity > HEADER + |sub| + |body| then capacity else HEADER + |sub| + |body|)
            && HashOk(h, m)
            && IdField(m) == uuid
            && TypeField(m) == LPad(kind, 5)
            && Carries(m, source, dest, priority, now)
            && Substr(m, HEADER + 1, |sub|) == sub
            && Substr(m, HEADER + 1 + |sub|, |body|) == body
            && forall i :: HEADER + |sub| + |body| <= i < |m| ==> m[i] == SPACE
  {
    hide LPad, Substr;
    var m := CreateMessage(h, uuid, kind, sub, body, source, dest, priority, now, capacity);
    var f := Fixed(uuid, kind, source, dest, priority, now);
    FixedFields(uuid, kind, source, dest, priority, now);
    var difference := capacity - 32 - |f + sub + body|;
    var pad := if difference > 0 then LPad([], difference) else [];
    assert f + sub + body + [] == f + sub + body;
    var g := h(f + sub + body + pad);
    assert m == g + (f + sub + body + pad);
    Slices(g, f, sub, body, pad);
    SubSlice(m, 0, g, 0, 32);
    SubSlice(m, 32, f, 0, 36);
    SubSlice(m, 32, f, 36, 5);
    SubSlice(m, 32, f, 41, 5);
    SubSlice(m, 32, f, 46, 5);
    SubSlice(m, 32, f, 51, 5);
    SubSlice(m, 32, f, 56, 26);
    SubSlice(m, HEADER, sub, 0, |sub|);
    SubSlice(m, HEADER + |sub|, body, 0, |body|);
    if difference > 0 { BlankPad(difference); }
    assert forall i :: HEADER + |sub| + |body| <= i < |m| ==> m[i] == pad[i - (HEADER + |sub| + |body|)];
  }

  lemma BlankPad(n: nat)
    ensures forall i :: 0 <= i < n ==> LPad([], n)[i] == SPACE
  {
  }

  /** A field inside the subheader is read at the header's length plus its offset in the subheader. */
  lemma SubField(m: Bytes, sub: Bytes, offset: nat, n: nat)
    requires Substr(m, HEADER + 1, |sub|) == sub
    requires offset + n <= |sub|
    ensures Substr(m, HEADER + 1 + offset, n) == sub[offset..offset + n]
  {
    if n > 0 {
      assert m[HEADER..HEADER + |sub|] == sub;
      SubSlice(m, HEADER, sub, offset, n);
    }
  }

  lemma ThreeParts(a: Bytes, b: Bytes, c: Bytes)
    ensures var s := a + b + c;
            s[0..|a|] == a && s[|a|..|a| + |b|] == b && s[|a| + |b|..|a| + |b| + |c|] == c
  {
  }

  /** The subheader of types 4 and 5: three numbers in eleven bytes each. */
  function ConsensusSubheader(capacity: int, port: int, ip: int): (s: Bytes)
    ensures |s| == 33
  {
    LPad(IntText(capacity), 11) + LPad(IntText(port), 11) + LPad(IntText(ip), 11)
  }

  function ConsensusMessage(h: Md5, uuid: Bytes, kind: Bytes, capacity: int, port: int, ip: int,
                            source: Bytes, dest: Bytes, now: Bytes): Bytes {
    CreateMessage(h, uuid, kind, ConsensusSubheader(capacity, port, ip), [], source, dest, [ZERO + 5], now,
      CONSENSUS_SIZE)
  }

  function CapacityField(m: Bytes): Option<int> { ParseInt(Substr(m, 115, 11)) }
  function PortField(m: Bytes): Option<int> { ParseInt(Substr(m, 126, 11)) }
  function IpField(m: Bytes): Option<int> { ParseInt(Substr(m, 137, 11)) }

  /** The address of a reply, which is read as a wider number than that of a request. */
  function ReplyIpField(m: Bytes): Option<int> { ParseBigInt(Substr(m, 137, 11)) }

  predicate IsInteger(n: int) { 0 <= n <= MAX_INTEGER }

  predicate IsAddress(n: int) { 0 <= n < 0x1_0000_0000 }

  /** How the statement for requests reads the address `ip`. */
  function RequestIp(ip: int): Option<int> {
    if IsInteger(ip) then Some(ip) else None
  }

  /** A consensus message is exactly 147 bytes, passes the hash check, and its three numbers read back; but
      an address from 2^31 on is not an INTEGER, as which a request's is read. */
  lemma ConsensusRoundTrip(h: Md5, uuid: Uuid, kind: Bytes, capacity: int, port: int, ip: int,
                           source: Bytes, dest: Bytes, now: Stamp)
    requires IsInteger(capacity) && IsInteger(port) && IsAddress(ip)
    ensures var m := ConsensusMessage(h, uuid, kind, capacity, port, ip, source, dest, now);
            && |m| == CONSENSUS_SIZE
            && HashOk(h, m)
            && IdField(m) == uuid
            && TypeField(m) == LPad(kind, 5) && Carries(m, source, dest, [ZERO + 5], now)
            && CapacityField(m) == Some(capacity) && PortField(m) == Some(port)
            && IpField(m) == RequestIp(ip) && ReplyIpField(m) == Some(ip)
  {
    hide ParseInt, ParseBigInt, Substr, CreateMessage, LPad;
    var sub := ConsensusSubheader(capacity, port, ip);
    var m := ConsensusMessage(h, uuid, kind, capacity, port, ip, source, dest, now);
    Layout(h, uuid, kind, sub, [], source, dest, [ZERO + 5], now, CONSENSUS_SIZE);
    SubField(m, sub, 0, 11);
    SubField(m, sub, 11, 11);
    SubField(m, sub, 22, 11);
    ThreeParts(LPad(IntText(capacity), 11), LPad(IntText(port), 11), LPad(IntText(ip), 11));
    FieldWidths();
    FieldRoundTrip(capacity, 11);
    FieldRoundTrip(port, 11);
    FieldRoundTrip(ip, 11);
  }

  lemma FieldWidths()
    ensures Pow10(8) == 1_0000_0000 && Pow10(10) > MAX_INTEGER && Pow10(12) > MAX_INTEGER
    ensures Pow10(11) > 0x1_0000_0000
  {
    assert Pow10(4) == 10000;
    assert Pow10(8) == 1_0000_0000;
  }
}
