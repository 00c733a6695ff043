/** Identity resolver: the string keys under which entities are stored.

    Addresses and transaction hashes arrive as hex strings and never contain
    the separator '-'; log indices are rendered in decimal. */
module Keys {

  const Separator: char := '-'

  /** An address or a transaction hash as the indexer renders it. */
  predicate IsIdent(s: string) {
    Separator !in s
  }

  predicate AllDigits(s: string) {
    forall i :: 0 <= i < |s| ==> '0' <= s[i] <= '9'
  }

  function DigitChar(d: nat): (c: char)
    requires d < 10
    ensures '0' <= c <= '9' && c as int - '0' as int == d
  {
    ('0' as int + d) as char
  }

  /** `BigInt.toString()` on a non-negative value: its decimal digits. */
  function DecimalString(n: nat): (s: string)
    ensures |s| > 0 && AllDigits(s)
    ensures IsIdent(s)
    decreases n
  {
    if n < 10 then [DigitChar(n)] else DecimalString(n / 10) + [DigitChar(n % 10)]
  }

  /** Reads a string of decimal digits back as a number. */
  function DecimalValue(s: string): nat
    requires AllDigits(s)
  {
    if |s| == 0 then 0
    else DecimalValue(s[..|s| - 1]) * 10 + (s[|s| - 1] as int - '0' as int)
  }

  lemma {:induction false} DecimalRoundTrip(n: nat)
    ensures DecimalValue(DecimalString(n)) == n
  {
    var s := DecimalString(n);
    if n < 10 {
      assert s[..|s| - 1] == [];
    } else {
      DecimalRoundTrip(n / 10);
      assert s[..|s| - 1] == DecimalString(n / 10);
    }
  }

  /** Distinct log indices render to distinct strings. */
  lemma DecimalStringInjective(m: nat, n: nat)
    ensures DecimalString(m) == DecimalString(n) <==> m == n
  {
    DecimalRoundTrip(m);
    DecimalRoundTrip(n);
  }

  /** `a.concat('-').concat(b)` */
  function Join(a: string, b: string): string {
    a + [Separator] + b
  }

  /** In a joined key whose right-hand part holds no separator, the
      separator after the left-hand part is the last one. */
  lemma LastSeparator(a: string, b: string)
    requires IsIdent(b)
    ensures Join(a, b)[|a|] == Separator
    ensures forall j :: |a| < j < |Join(a, b)| ==> Join(a, b)[j] != Separator
  {
    var k := Join(a, b);
    forall j | |a| < j < |k| ensures k[j] != Separator {
      assert k[j] == b[j - |a| - 1];
    }
  }

  /** A joined key splits back into its parts at its last separator, so it
      determines both parts whenever the right-hand parts hold no separator. */
  lemma JoinSplit(a: string, b: string, c: string, d: string)
    requires IsIdent(b) && IsIdent(d)
    ensures Join(a, b) == Join(c, d) <==> a == c && b == d
  {
    var k, k' := Join(a, b), Join(c, d);
    if k == k' {
      LastSeparator(a, b);
      LastSeparator(c, d);
      assert |a| == |c|;
      assert a == k[..|a|] && c == k'[..|c|];
      assert b == k[|a| + 1..] && d == k'[|c| + 1..];
    }
  }

  /** Key of the per-(market, account) position record. */
  function PositionKey(marketId: string, accountId: string): (k: string)
    ensures k == marketId + "-" + accountId
  {
    Join(marketId, accountId)
  }

  /** Key of the per-log marker of a position. */
  function MarkerKey(positionId: string, txHash: string, logIndex: nat): (k: string)
    ensures k == positionId + "-" + txHash + "-" + DecimalString(logIndex)
    ensures AllDigits(k[|positionId| + |txHash| + 2..])
  {
    Join(Join(positionId, txHash), DecimalString(logIndex))
  }

  /** Key of the Repay, Liquidation, Withdraw and Deposit records. */
  function RecordKey(txHash: string, transactionLogIndex: nat): (k: string)
    ensures k == txHash + "-" + DecimalString(transactionLogIndex)
    ensures AllDigits(k[|txHash| + 1..])
  {
    Join(txHash, DecimalString(transactionLogIndex))
  }

  /** Key of the Borrow record: the transaction hash alone. */
  function BorrowKey(txHash: string): (k: string)
    ensures k == txHash
  {
    txHash
  }

  lemma PositionKeyInjective(m: string, a: string, m': string, a': string)
    requires IsIdent(a) && IsIdent(a')
    ensures PositionKey(m, a) == PositionKey(m', a') <==> m == m' && a == a'
  {
    JoinSplit(m, a, m', a');
  }

  /** Record keys never collide across different logs, whatever the hash. */
  lemma RecordKeyInjective(tx: string, i: nat, tx': string, i': nat)
    ensures RecordKey(tx, i) == RecordKey(tx', i') <==> tx == tx' && i == i'
  {
    JoinSplit(tx, DecimalString(i), tx', DecimalString(i'));
    DecimalStringInjective(i, i');
  }

  lemma MarkerKeyInjective(p: string, tx: string, i: nat, p': string, tx': string, i': nat)
    requires IsIdent(tx) && IsIdent(tx')
    ensures MarkerKey(p, tx, i) == MarkerKey(p', tx', i') <==> p == p' && tx == tx' && i == i'
  {
    JoinSplit(Join(p, tx), DecimalString(i), Join(p', tx'), DecimalString(i'));
    JoinSplit(p, tx, p', tx');
    DecimalStringInjective(i, i');
  }
}
