/** The signature of EPUSDT requests and callbacks. */
module Signing {
  import opened Text
  import opened Totals

  /** A decoded JSON value: a number carries its printed form and its part before the point. */
  datatype Value = Nil | Str(text: string) | Number(printed: string, whole: int) | Other(printed: string)

  type Payload = map<string, Value>

  function StringValue(v: Value): string {
    match v
    case Nil => ""
    case Str(s) => s
    case Number(p, _) => p
    case Other(p) => p
  }

  /** The value strconv.Atoi returns next to its error: zero for bad syntax, the bound when out of range. */
  function AtoiValue(s: string): int {
    match Atoi(s)
    case Some(n) => n
    case None =>
      var digits := if s != "" && (s[0] == '-' || s[0] == '+') then s[1..] else s;
      if ParseDigits(digits).None? then 0 else if s[0] == '-' then -MAX_INT - 1 else MAX_INT
  }

  function IntValue(v: Value): int {
    match v
    case Number(_, n) => n
    case Str(s) => AtoiValue(TrimSpace(s))
    case _ => 0
  }

  function Field(payload: Payload, key: string): Value {
    if key in payload then payload[key] else Nil
  }

  function TextField(payload: Payload, key: string): string {
    TrimSpace(StringValue(Field(payload, key)))
  }

  /** What is read from a field: texts and printed numbers trimmed, nothing from an absent one; and as
      an integer the part before the point, or the number a text spells. */
  lemma FieldReads(payload: Payload, key: string, s: string, n: int)
    ensures key !in payload || payload[key] == Nil ==>
      TextField(payload, key) == "" && IntValue(Field(payload, key)) == 0
    ensures key in payload && payload[key] == Str(s) ==> TextField(payload, key) == TrimSpace(s)
    ensures key in payload && payload[key] == Str(Itoa(n)) && 0 <= n <= MAX_INT ==> IntValue(Field(payload, key)) == n
    ensures key in payload && payload[key] == Number(s, n) ==>
      TextField(payload, key) == TrimSpace(s) && IntValue(Field(payload, key)) == n
  {
    TrimSpaceTrims("");
    TrimSpaceTrims(Itoa(n));
    if 0 <= n <= MAX_INT {
      AtoiOfItoa(n);
    }
  }

  // ---- the text that is signed ----

  /** What the signature looks at: the entries other than the signature itself that print as
      something, with their printed form trimmed. */
  function Relevant(params: Payload): map<string, string> {
    map k | k in params && k != "signature" && TextField(params, k) != "" :: TextField(params, k)
  }

  function Pair(key: string, value: string): string {
    key + "=" + value
  }

  /** The pairs as a bag: two entries may print alike. */
  ghost function PairBag(m: map<string, string>): multiset<string> {
    Images(m, Pair)
  }

  lemma {:induction false} SortedExists(bag: multiset<string>)
    ensures exists s :: Sorted(s) && multiset(s) == bag
    decreases |bag|
  {
    if bag == multiset{} {
      assert Sorted([]) && multiset([]) == bag;
    } else {
      var x :| x in bag;
      SortedExists(bag - multiset{x});
      var s :| Sorted(s) && multiset(s) == bag - multiset{x};
      InsertKeepsSorted(x, s);
      InsertKeepsElements(x, s);
      assert Sorted(Insert(x, s)) && multiset(Insert(x, s)) == bag;
    }
  }

  /** The pairs of a bag in sorted order: there is exactly one such sequence. */
  ghost function SortedPairs(bag: multiset<string>): (s: seq<string>)
    ensures Sorted(s) && multiset(s) == bag
  {
    SortedExists(bag);
    var s :| Sorted(s) && multiset(s) == bag;
    s
  }

  /** The canonical text: a function of the bag of pairs alone. */
  ghost function CanonicalText(bag: multiset<string>): string {
    Join(SortedPairs(bag), "&")
  }

  /** epusdtSignature, with the digest as a parameter */
  ghost function Signature(params: Payload, secret: string, digest: string -> string): string {
    digest(CanonicalText(PairBag(Relevant(params))) + secret)
  }

  /** The relevant entries among those the signing loop has passed. */
  ghost predicate IsVisited(seen: map<string, string>, params: Payload, left: set<string>) {
    && (forall k :: k in seen <==> k in Relevant(params) && k !in left)
    && forall k :: k in seen ==> seen[k] == Relevant(params)[k]
  }

  lemma VisitOne(seen: map<string, string>, params: Payload, left: set<string>, key: string)
    requires IsVisited(seen, params, left) && key in left && key in params
    ensures key in Relevant(params) ==>
      key !in seen && IsVisited(seen[key := Relevant(params)[key]], params, left - {key})
    ensures key !in Relevant(params) ==> IsVisited(seen, params, left - {key})
  {
  }

  lemma CollectOne(pairs: seq<string>, seen: map<string, string>, key: string, value: string)
    requires multiset(pairs) == PairBag(seen) && key !in seen
    ensures multiset(pairs + [Pair(key, value)]) == PairBag(seen[key := value])
  {
    ImagesMore(seen, Pair, key, value);
  }

  /** A bag of the pairs "key=value" of the entries. */
  lemma PairBagMore(m: map<string, string>, key: string, value: string)
    ensures PairBag(map[]) == multiset{}
    ensures key !in m ==> PairBag(m[key := value]) == PairBag(m) + multiset{key + "=" + value}
  {
    if key !in m {
      ImagesMore(m, Pair, key, value);
    }
  }

  /** The signature is the digest of the sorted pairs of the entries that are neither blank nor the
      signature itself, joined by ampersands and followed by the secret. */
  lemma SignatureMeans(params: Payload, secret: string, digest: string -> string, pairs: seq<string>)
    ensures var signed := map k | k in params && k != "signature" && TrimSpace(StringValue(params[k])) != "" ::
        TrimSpace(StringValue(params[k]));
      Sorted(pairs) && multiset(pairs) == PairBag(signed) ==>
        Signature(params, secret, digest) == digest(Join(pairs, "&") + secret)
  {
    var signed := map k | k in params && k != "signature" && TrimSpace(StringValue(params[k])) != "" ::
      TrimSpace(StringValue(params[k]));
    assert signed == Relevant(params);
    if Sorted(pairs) && multiset(pairs) == PairBag(signed) {
      SortedUnique(pairs, SortedPairs(PairBag(signed)));
    }
  }

  /** The signing loop visits the parameters in any order and yields the one signature. */
  method ComputeSignature(params: Payload, secret: string, digest: string -> string) returns (signature: string)
    ensures signature == Signature(params, secret, digest)
  {
    var pairs: seq<string> := [];
    var left := params.Keys;
    ghost var seen: map<string, string> := map[];
    while left != {}
      invariant left <= params.Keys
      invariant IsVisited(seen, params, left)
      invariant multiset(pairs) == PairBag(seen)
      decreases |left|
    {
      var key :| key in left;
      VisitOne(seen, params, left, key);
      left := left - {key};
      if key == "signature" || params[key].Nil? {
        continue;
      }
      var value := TrimSpace(StringValue(params[key]));
      if value == "" {
        continue;
      }
      CollectOne(pairs, seen, key, value);
      pairs := pairs + [Pair(key, value)];
      seen := seen[key := value];
    }
    assert seen == Relevant(params);
    pairs := SortStrings(pairs);
    SortedUnique(pairs, SortedPairs(PairBag(Relevant(params))));
    signature := digest(Join(pairs, "&") + secret);
  }

  /** Adding, changing or removing the signature entry leaves the signed text as it is. */
  lemma SignatureIgnoresItself(params: Payload, v: Value)
    ensures Relevant(params["signature" := v]) == Relevant(params)
    ensures Relevant(params - {"signature"}) == Relevant(params)
  {
  }

  /** So does adding, changing or removing an entry that prints as nothing. */
  lemma SignatureIgnoresBlanks(params: Payload, k: string, v: Value)
    requires TrimSpace(StringValue(v)) == "" && (k in params ==> TextField(params, k) == "")
    ensures Relevant(params[k := v]) == Relevant(params)
    ensures Relevant(params - {k}) == Relevant(params)
  {
    BlankIsIrrelevant(params[k := v], params, k);
    BlankIsIrrelevant(params - {k}, params, k);
  }

  /** Two payloads that agree but for one key, where both print as nothing. */
  lemma BlankIsIrrelevant(a: Payload, b: Payload, k: string)
    requires a - {k} == b - {k} && TextField(a, k) == "" && TextField(b, k) == ""
    ensures Relevant(a) == Relevant(b)
  {
    forall x ensures (x in a && x != k) == (x in b && x != k) && (x != k ==> Field(a, x) == Field(b, x)) {
      assert x in a - {k} <==> x in b - {k};
    }
  }

  /** The signature check of a callback. */
  ghost predicate Verifies(payload: Payload, secret: string, digest: string -> string) {
    TextField(payload, "signature") != "" && TextField(payload, "signature") == Signature(payload, secret, digest)
  }

  /** A digest prints as hexadecimal digits: never blank, never with white space at an end. */
  ghost predicate PrintsAsHex(digest: string -> string) {
    forall text :: digest(text) != "" && Trimmed(digest(text))
  }

  /** A payload signed by the sender verifies, also when blank entries or another signature were
      there before. */
  lemma SignedPayloadVerifies(params: Payload, secret: string, digest: string -> string)
    requires PrintsAsHex(digest)
    ensures Verifies(params["signature" := Str(Signature(params, secret, digest))], secret, digest)
  {
    var signature := Signature(params, secret, digest);
    SignatureIgnoresItself(params, Str(signature));
    TrimSpaceTrims(signature);
  }
}
