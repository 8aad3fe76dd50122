/** Grammar of client order ids (fbot/core/ids.py). */
module Ids {
  import opened Common
  import opened Rounding

  const MAX_LEN := 36
  const SEP := '-'
  const HASH_LEN := 10
  const MAX_TAG := 4

  datatype ExitTag = X | EM | TP1

  /** The structure of an id this system emits; `Render` is the text sent to the exchange. */
  datatype OrderId =
    | EntryId(posId: string)
    | AlgoId(posId: string, role: Role, version: nat)
    | ExitId(posId: string, tag: ExitTag, seqNo: nat)

  function RoleText(role: Role): string {
    match role case SL => "SL" case TP => "TP"
  }

  function TagText(tag: ExitTag): string {
    match tag case X => "X" case EM => "EM" case TP1 => "TP1"
  }

  function Digit(d: nat): char
    requires d < 10
  {
    "0123456789"[d]
  }

  function Decimal(n: nat): string {
    if n < 10 then [Digit(n)] else Decimal(n / 10) + [Digit(n % 10)]
  }

  /** What follows the position id: a separator, the role or tag, a separator and the version. */
  function Tail(head: string, n: nat): string {
    [SEP] + head + [SEP] + "v" + Decimal(n)
  }

  function Suffix(id: OrderId): string {
    match id
    case EntryId(_) => ""
    case AlgoId(_, role, version) => Tail(RoleText(role), version)
    case ExitId(_, tag, seqNo) => Tail(TagText(tag), seqNo)
  }

  function Render(id: OrderId): string {
    id.posId + Suffix(id)
  }

  /** Ids over the exchange's length limit are refused. */
  function Check(cid: string): (r: Result<string>) {
    if |cid| > MAX_LEN then Err("client order id too long") else Ok(cid)
  }

  function EntryCid(tag: string, side: Side, hash: string): Result<string> {
    if tag == "" || |tag| > MAX_TAG || SEP in tag then Err("bad strategy tag")
    else Check(tag + (if side == Long then "L" else "S") + hash)
  }

  function AlgoCid(posId: string, role: Role, version: nat): Result<string> {
    Check(Render(AlgoId(posId, role, version)))
  }

  function ExitCid(posId: string, tag: ExitTag, seqNo: nat): Result<string> {
    Check(Render(ExitId(posId, tag, seqNo)))
  }

  /** Everything before the first separator; the whole text when there is none. */
  function PosIdOf(cid: string): string {
    if cid == "" || cid[0] == SEP then "" else [cid[0]] + PosIdOf(cid[1..])
  }

  lemma {:induction false} PosIdOfPrefix(p: string, rest: string)
    requires SEP !in p
    ensures PosIdOf(p) == p
    ensures PosIdOf(p + [SEP] + rest) == p
  {
    if p != "" {
      assert SEP !in p[1..];
      PosIdOfPrefix(p[1..], rest);
      assert (p + [SEP] + rest)[1..] == p[1..] + [SEP] + rest;
      assert p == [p[0]] + p[1..];
    }
  }

  lemma {:induction false} DecimalInjective(m: nat, n: nat)
    requires Decimal(m) == Decimal(n)
    ensures m == n
  {
    assert Decimal(m)[|Decimal(m)| - 1] == Digit(m % 10);
    assert Decimal(n)[|Decimal(n)| - 1] == Digit(n % 10);
    assert m % 10 == n % 10;
    DecimalLength(m);
    DecimalLength(n);
    if m >= 10 && n >= 10 {
      assert Decimal(m)[..|Decimal(m)| - 1] == Decimal(m / 10);
      assert Decimal(n)[..|Decimal(n)| - 1] == Decimal(n / 10);
      DecimalInjective(m / 10, n / 10);
    }
  }

  lemma {:induction false} DecimalLength(n: nat)
    ensures |Decimal(n)| >= 1
    ensures n >= 10 ==> |Decimal(n)| >= 2
  {
    if n >= 10 {
      DecimalLength(n / 10);
    }
  }

  function Power10(k: nat): nat {
    if k == 0 then 1 else 10 * Power10(k - 1)
  }

  lemma {:induction false} DecimalWidth(n: nat, k: nat)
    requires k >= 1 && n < Power10(k)
    ensures |Decimal(n)| <= k
  {
    if n >= 10 {
      assert k >= 2;
      DecimalWidth(n / 10, k - 1);
    }
  }

  /** Two ids of this system with the same text are the same id, and the position is recovered from
      the text: the separator never occurs inside a position id. */
  lemma RenderInjective(a: OrderId, b: OrderId)
    requires SEP !in a.posId && SEP !in b.posId
    ensures PosIdOf(Render(a)) == a.posId
    ensures Render(a) == Render(b) ==> a == b
  {
    RenderPosition(a);
    RenderPosition(b);
    if Render(a) == Render(b) {
      var p := a.posId;
      assert Render(a)[|p|..] == Suffix(a);
      assert Render(b)[|p|..] == Suffix(b);
      SuffixInjective(a, b);
    }
  }

  lemma RenderPosition(a: OrderId)
    requires SEP !in a.posId
    ensures PosIdOf(Render(a)) == a.posId
  {
    var p, t := a.posId, Suffix(a);
    if a.EntryId? {
      assert p + t == p;
      PosIdOfPrefix(p, "");
    } else {
      assert t[0] == SEP;
      PosIdOfPrefix(p, t[1..]);
      assert p + [SEP] + t[1..] == p + t;
    }
  }

  lemma TailInjective(h1: string, m: nat, h2: string, n: nat)
    requires SEP !in h1 && SEP !in h2
    requires Tail(h1, m) == Tail(h2, n)
    ensures h1 == h2 && m == n
  {
    var s := Tail(h1, m);
    assert s[1 + |h1|] == SEP && s[1 + |h2|] == SEP;
    assert forall i :: 0 <= i < |h1| ==> s[1 + i] == h1[i] && h1[i] != SEP;
    assert forall i :: 0 <= i < |h2| ==> s[1 + i] == h2[i] && h2[i] != SEP;
    assert s[3 + |h1|..] == Decimal(m) && s[3 + |h2|..] == Decimal(n);
    DecimalInjective(m, n);
  }

  function HeadText(id: OrderId): string
    requires !id.EntryId?
  {
    if id.AlgoId? then RoleText(id.role) else TagText(id.tag)
  }

  lemma HeadTextInjective(a: OrderId, b: OrderId)
    requires !a.EntryId? && !b.EntryId? && HeadText(a) == HeadText(b)
    ensures a.AlgoId? == b.AlgoId?
    ensures a.AlgoId? ==> a.role == b.role
    ensures a.ExitId? ==> a.tag == b.tag
  {
    var s, t := HeadText(a), HeadText(b);
    assert |s| == |t| && s[0] == t[0] && (|s| == 2 ==> s[1] == t[1]);
  }

  lemma SuffixInjective(a: OrderId, b: OrderId)
    requires a.posId == b.posId && Suffix(a) == Suffix(b)
    ensures a == b
  {
    assert a.EntryId? <==> |Suffix(a)| == 0;
    assert b.EntryId? <==> |Suffix(b)| == 0;
    if !a.EntryId? {
      TailInjective(HeadText(a), if a.AlgoId? then a.version else a.seqNo,
                    HeadText(b), if b.AlgoId? then b.version else b.seqNo);
      HeadTextInjective(a, b);
    }
  }

  /** Entry ids are at most 15 characters and carry no separator, so the protective ids built on one
      stay within the exchange limit for all versions below 10^16 and its exit ids below 10^15. */
  lemma IdsFitTheLimit(tag: string, side: Side, hash: string, role: Role, exit: ExitTag, m: nat, n: nat)
    requires |hash| == HASH_LEN && SEP !in hash
    requires m < Power10(16) && n < Power10(15)
    ensures EntryCid(tag, side, hash).Ok? <==> 1 <= |tag| <= MAX_TAG && SEP !in tag
    ensures EntryCid(tag, side, hash).Ok? ==>
      var p := EntryCid(tag, side, hash).value;
      && |p| <= 15 && SEP !in p && PosIdOf(p) == p
      && AlgoCid(p, role, m) == Ok(Render(AlgoId(p, role, m)))
      && ExitCid(p, exit, n) == Ok(Render(ExitId(p, exit, n)))
  {
    if EntryCid(tag, side, hash).Ok? {
      var p := EntryCid(tag, side, hash).value;
      PosIdOfPrefix(p, "");
      DecimalWidth(m, 16);
      DecimalWidth(n, 15);
      assert |Tail(RoleText(role), m)| == 5 + |Decimal(m)|;
      assert |Tail(TagText(exit), n)| <= 6 + |Decimal(n)|;
    }
  }

  /** For one tag, two entry ids are equal exactly when their sides and hashes are. */
  lemma EntryCidInjective(tag: string, s1: Side, h1: string, s2: Side, h2: string)
    requires |h1| == HASH_LEN && |h2| == HASH_LEN
    requires EntryCid(tag, s1, h1).Ok? && EntryCid(tag, s2, h2).Ok?
    ensures EntryCid(tag, s1, h1) == EntryCid(tag, s2, h2) <==> s1 == s2 && h1 == h2
  {
    var a, b := EntryCid(tag, s1, h1).value, EntryCid(tag, s2, h2).value;
    assert a[|tag|] == (if s1 == Long then 'L' else 'S') && b[|tag|] == (if s2 == Long then 'L' else 'S');
    assert a[|tag| + 1..] == h1 && b[|tag| + 1..] == h2;
  }
}
