/** The Token collection: its documents, the filters the services query it with, and the
    collection operations they call (`create`, `findOne`, `updateOne`, `deleteMany`, `remove`). */
module TokenModel {
  import opened Results
  import opened Jwt

  /** A token document: `{ token, user, expires, type, blacklisted }`. */
  datatype TokenDoc = TokenDoc(token: TokenValue, user: UserId, expires: int, kind: TokenType, blacklisted: bool)

  /** A query filter: every field that is present must be equal in a matching document. */
  datatype Query = Query(token: Option<TokenValue>, kind: Option<TokenType>, user: Option<UserId>, blacklisted: Option<bool>)

  predicate Satisfies(d: TokenDoc, q: Query) {
    && (q.token.Some? ==> d.token == q.token.value)
    && (q.kind.Some? ==> d.kind == q.kind.value)
    && (q.user.Some? ==> d.user == q.user.value)
    && (q.blacklisted.Some? ==> d.blacklisted == q.blacklisted.value)
  }

  /** At most one document of the collection matches `q`. */
  predicate AtMostOne(docs: seq<TokenDoc>, q: Query) {
    forall j, k :: 0 <= j < |docs| && 0 <= k < |docs| && Satisfies(docs[j], q) && Satisfies(docs[k], q) ==> j == k
  }

  /** `findOne(q)`: the position of the first document, in natural order, that matches. */
  function FindOne(docs: seq<TokenDoc>, q: Query): (r: Option<nat>)
    ensures r.Some? ==> r.value < |docs| && Satisfies(docs[r.value], q)
    ensures r.Some? ==> forall j :: 0 <= j < r.value ==> !Satisfies(docs[j], q)
    ensures r.None? <==> forall j :: 0 <= j < |docs| ==> !Satisfies(docs[j], q)
  {
    if docs == [] then None
    else if Satisfies(docs[0], q) then Some(0)
    else match FindOne(docs[1..], q)
      case None => None
      case Some(i) => Some(i + 1)
  }

  /** The collection after `deleteMany(q)`: every matching document is gone, every other one
      is kept as often as it was there. */
  function DeleteMatching(docs: seq<TokenDoc>, q: Query): (r: seq<TokenDoc>)
    ensures forall d :: multiset(r)[d] == if Satisfies(d, q) then 0 else multiset(docs)[d]
    ensures forall d :: d in r <==> d in docs && !Satisfies(d, q)
    ensures forall j :: 0 <= j < |r| ==> !Satisfies(r[j], q)
    ensures |r| <= |docs|
  {
    if docs == [] then []
    else
      var rest := DeleteMatching(docs[1..], q);
      assert docs == [docs[0]] + docs[1..];
      assert multiset(docs) == multiset{docs[0]} + multiset(docs[1..]);
      if Satisfies(docs[0], q) then rest
      else
        assert multiset([docs[0]] + rest) == multiset{docs[0]} + multiset(rest);
        [docs[0]] + rest
  }

  /** The collection after `remove()` of the document at position `i`: that one document is
      gone and the others keep their order. */
  function RemoveAt(docs: seq<TokenDoc>, i: nat): (r: seq<TokenDoc>)
    requires i < |docs|
    ensures |r| == |docs| - 1
    ensures multiset(r) == multiset(docs) - multiset{docs[i]}
    ensures forall j :: 0 <= j < i ==> r[j] == docs[j]
    ensures forall j :: i <= j < |r| ==> r[j] == docs[j + 1]
  {
    assert docs == docs[..i] + [docs[i]] + docs[i + 1..];
    docs[..i] + docs[i + 1..]
  }

  /** The collection after `updateOne(q, { token })`: the first matching document, if any,
      takes the new token value and keeps its other fields. */
  function UpdateFirst(docs: seq<TokenDoc>, q: Query, token: TokenValue): (r: seq<TokenDoc>)
    ensures |r| == |docs|
    ensures FindOne(docs, q).None? ==> r == docs
    ensures forall j :: 0 <= j < |docs| ==>
      r[j] == if FindOne(docs, q) == Some(j) then docs[j].(token := token) else docs[j]
  {
    match FindOne(docs, q)
    case None => docs
    case Some(i) => docs[i := docs[i].(token := token)]
  }

  /** The Token collection: its documents in natural (insertion) order. */
  class TokenCollection {
    var docs: seq<TokenDoc>

    constructor (initial: seq<TokenDoc>)
      ensures docs == initial
    {
      docs := initial;
    }

    /** `Token.create(doc)` */
    method Create(doc: TokenDoc)
      modifies this
      ensures docs == old(docs) + [doc]
    {
      docs := docs + [doc];
    }

    /** `remove()` of the document at position `i` */
    method Remove(i: nat)
      requires i < |docs|
      modifies this
      ensures docs == RemoveAt(old(docs), i)
    {
      docs := RemoveAt(docs, i);
    }

    /** `Token.deleteMany(q)` */
    method DeleteMany(q: Query)
      modifies this
      ensures docs == DeleteMatching(old(docs), q)
    {
      docs := DeleteMatching(docs, q);
    }

    /** `Token.updateOne(q, { token })` */
    method UpdateOne(q: Query, token: TokenValue)
      modifies this
      ensures docs == UpdateFirst(old(docs), q, token)
    {
      docs := UpdateFirst(docs, q, token);
    }
  }
}
