/**
 * The idempotency key is a string of four fields joined by colons.  It identifies a task
 * because the fields can be read back from it.
 */
module Ids {
  import opened Wrappers

  function Digit(d: nat): char
    requires d < 10
  {
    "0123456789"[d]
  }

  /** Decimal notation of a number. */
  function Decimal(n: nat): (s: string)
    ensures |s| > 0
    ensures forall i :: 0 <= i < |s| ==> '0' <= s[i] <= '9'
  {
    if n < 10 then [Digit(n)] else Decimal(n / 10) + [Digit(n % 10)]
  }

  function DigitValue(c: char): nat {
    if '0' <= c <= '9' then c as int - '0' as int else 0
  }

  function DecimalValue(s: string): nat {
    if |s| == 0 then 0 else 10 * DecimalValue(s[..|s| - 1]) + DigitValue(s[|s| - 1])
  }

  lemma {:induction false} DecimalReadsBack(n: nat)
    ensures DecimalValue(Decimal(n)) == n
  {
    if n < 10 {
      assert DecimalValue([Digit(n)][..0]) == 0;
    } else {
      DecimalReadsBack(n / 10);
      var s := Decimal(n / 10) + [Digit(n % 10)];
      assert s[..|s| - 1] == Decimal(n / 10);
    }
  }

  function OrElse(id: Option<string>, default: string): string {
    match id
    case Some(s) => s
    case None => default
  }

  function KeyTarget(orderId: Option<string>, contentId: Option<string>): string {
    OrElse(contentId, OrElse(orderId, "none"))
  }

  function IdempotencyKey(kind: string, orderId: Option<string>, contentId: Option<string>, sceneId: Option<string>,
                          attempt: nat): string {
    kind + ":" + (KeyTarget(orderId, contentId) + ":" + (OrElse(sceneId, "-") + ":" + Decimal(attempt)))
  }

  predicate ColonFree(s: string) {
    forall i :: 0 <= i < |s| ==> s[i] != ':'
  }

  /** A colon-free field in front of a colon is determined by the whole. */
  lemma FirstField(a: string, x: string, b: string, y: string)
    requires ColonFree(a) && ColonFree(b) && a + ":" + x == b + ":" + y
    ensures a == b && x == y
  {
    var s := a + ":" + x;
    assert s[|a|] == ':' && s[|b|] == ':';
    assert forall i :: 0 <= i < |a| ==> s[i] == a[i];
    assert forall i :: 0 <= i < |b| ==> (b + ":" + y)[i] == b[i];
    assert |a| == |b|;
    assert s[..|a|] == a && s[..|b|] == b;
    assert s[|a| + 1..] == x && (b + ":" + y)[|b| + 1..] == y;
  }

  /** Two requests share a key exactly when they agree on kind, target, scene and attempt. */
  lemma KeyIdentifiesTask(
    kind: string, orderId: Option<string>, contentId: Option<string>, sceneId: Option<string>, attempt: nat,
    kind': string, orderId': Option<string>, contentId': Option<string>, sceneId': Option<string>, attempt': nat)
    requires ColonFree(kind) && ColonFree(kind')
    requires ColonFree(KeyTarget(orderId, contentId)) && ColonFree(KeyTarget(orderId', contentId'))
    requires ColonFree(OrElse(sceneId, "-")) && ColonFree(OrElse(sceneId', "-"))
    requires sceneId != Some("-") && sceneId' != Some("-")
    ensures IdempotencyKey(kind, orderId, contentId, sceneId, attempt)
              == IdempotencyKey(kind', orderId', contentId', sceneId', attempt')
      <==> kind == kind' && KeyTarget(orderId, contentId) == KeyTarget(orderId', contentId')
           && sceneId == sceneId' && attempt == attempt'
  {
    var rest := OrElse(sceneId, "-") + ":" + Decimal(attempt);
    var rest' := OrElse(sceneId', "-") + ":" + Decimal(attempt');
    if IdempotencyKey(kind, orderId, contentId, sceneId, attempt)
       == IdempotencyKey(kind', orderId', contentId', sceneId', attempt')
    {
      FirstField(kind, KeyTarget(orderId, contentId) + ":" + rest,
                 kind', KeyTarget(orderId', contentId') + ":" + rest');
      FirstField(KeyTarget(orderId, contentId), rest, KeyTarget(orderId', contentId'), rest');
      FirstField(OrElse(sceneId, "-"), Decimal(attempt), OrElse(sceneId', "-"), Decimal(attempt'));
      DecimalReadsBack(attempt);
      DecimalReadsBack(attempt');
    }
  }

  /** For example. */
  lemma KeyExample()
    ensures IdempotencyKey("RENDER", Some("o1"), Some("c1"), None, 1) == "RENDER:c1:-:1"
    ensures IdempotencyKey("SELECTION", Some("o1"), None, None, 1) == "SELECTION:o1:-:1"
    ensures IdempotencyKey("GENERATE_VIDEO", Some("o1"), Some("c1"), Some("s1"), 2) == "GENERATE_VIDEO:c1:s1:2"
  {
  }
}
