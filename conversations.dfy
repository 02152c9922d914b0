/**
 * Scoping of WholesaleX conversations for WCFM vendors: the meta clause added
 * to the conversation query, the permission filters that let a vendor in, the
 * author list a vendor is added to, and the CSS class of a reply.
 */
module Conversations {
  import opened Wrappers
  import opened OrderedMaps
  import opened Php
  import opened WcfmRequest

  const VendorIdMetaKey := "wholesalex_conversation_vid"
  const MetaQuery := StrKey("meta_query")

  /** The clause the vendor dashboard adds: conversations tagged with this vendor's id. */
  function VendorClause(vendorId: int): Value {
    Arr(Lit([("key", Str(VendorIdMetaKey)), ("value", Int(vendorId)), ("compare", Str("="))]))
  }

  /** The clause every other caller adds: conversations with no vendor tag. */
  function UntaggedClause(): Value {
    Arr(Lit([("key", Str(VendorIdMetaKey)), ("compare", Str("NOT EXISTS"))]))
  }

  /** The PHP Error raised by `$x[] = $q` when $x holds a string, a number or true. */
  datatype ArgsError = ScalarUsedAsArray

  /** The `meta_query` values `$args['meta_query'][] = $q` accepts: unset/null and false become a new array. */
  predicate Appendable(v: Value) {
    v.Null? || v == Bool(false) || v.Arr?
  }

  /** The clauses already in `meta_query` (none when it is not an array). */
  function ClausesIn(args: Array): Array {
    var mq := Read(args, MetaQuery);
    if mq.Arr? then mq.entries else []
  }

  /** `$x[] = $q` on the value x of an array element. */
  function AppendTo(x: Value, q: Value): Result<Value, ArgsError> {
    if x.Arr? then Ok(Arr(Push(x.entries, q)))
    else if Appendable(x) then Ok(Arr(Push([], q)))
    else Err(ScalarUsedAsArray)
  }

  /**
   * `modify_conversations_args`: append one `wholesalex_conversation_vid` clause to
   * `meta_query`, "= vendor id" on the vendor dashboard and "NOT EXISTS" elsewhere.
   * The initialisation guard before the append can never fire; the append itself
   * creates `meta_query` when it is missing.
   */
  function ModifyConversationsArgs(args: Array, isFrontend: bool, req: Request): (r: Result<Array, ArgsError>)
    ensures r.Ok? <==> Appendable(Read(args, MetaQuery))
    ensures r.Ok? ==> forall k :: k != MetaQuery ==> Get(r.value, k) == Get(args, k)
    ensures r.Ok? ==> Read(r.value, MetaQuery).Arr?
    ensures r.Ok? ==>
      var after := Read(r.value, MetaQuery).entries;
      |after| == |ClausesIn(args)| + 1 && after[..|ClausesIn(args)|] == ClausesIn(args)
      && after[|ClausesIn(args)|].1 == (if isFrontend then VendorClause(req.vendorId) else UntaggedClause())
  {
    var q := if isFrontend then VendorClause(req.vendorId) else UntaggedClause();
    SetGet(args, MetaQuery, Arr([]));
    var guarded := if !IsSet(args, MetaQuery) && Read(args, MetaQuery).Arr? then Set(args, MetaQuery, Arr([])) else args;
    match AppendTo(Read(guarded, MetaQuery), q)
    case Ok(mq) =>
      SetGet(guarded, MetaQuery, mq);
      Ok(Set(guarded, MetaQuery, mq))
    case Err(e) => Err(e)
  }

  /** `! isset($args['meta_query']) && is_array($args['meta_query'])` holds for no args. */
  lemma MetaQueryGuardIsDead(args: Array)
    ensures !(!IsSet(args, MetaQuery) && Read(args, MetaQuery).Arr?)
  {
  }

  /**
   * The evidently intended `modify_conversations_args`: make `meta_query` an array
   * when it is not one, then append the clause. It never fails.
   */
  function ModifyConversationsArgsIntended(args: Array, isFrontend: bool, req: Request): (r: Array)
    ensures forall k :: k != MetaQuery ==> Get(r, k) == Get(args, k)
    ensures Read(r, MetaQuery).Arr?
    ensures
      var after := Read(r, MetaQuery).entries;
      |after| == |ClausesIn(args)| + 1 && after[..|ClausesIn(args)|] == ClausesIn(args)
      && after[|ClausesIn(args)|].1 == (if isFrontend then VendorClause(req.vendorId) else UntaggedClause())
  {
    var q := if isFrontend then VendorClause(req.vendorId) else UntaggedClause();
    SetGet(args, MetaQuery, Arr([]));
    var base := if !Read(args, MetaQuery).Arr? then Set(args, MetaQuery, Arr([])) else args;
    SetGet(base, MetaQuery, Arr(Push(Read(base, MetaQuery).entries, q)));
    Set(base, MetaQuery, Arr(Push(Read(base, MetaQuery).entries, q)))
  }

  /** Where the code as written succeeds, it agrees with the intended version. */
  lemma IntendedAgreesWhenAppendable(args: Array, isFrontend: bool, req: Request)
    requires Appendable(Read(args, MetaQuery))
    ensures ModifyConversationsArgs(args, isFrontend, req) == Ok(ModifyConversationsArgsIntended(args, isFrontend, req))
  {
    var q := if isFrontend then VendorClause(req.vendorId) else UntaggedClause();
    SetGet(args, MetaQuery, Arr([]));
    if !Read(args, MetaQuery).Arr? {
      SetTwice(args, MetaQuery, Arr([]), Arr(Push([], q)));
    }
  }

  /** A `meta_query` holding a string: the code as written raises an Error, the intended version appends. */
  lemma StringMetaQueryFails(req: Request)
    ensures ModifyConversationsArgs([(MetaQuery, Str("x"))], true, req) == Err(ScalarUsedAsArray)
    ensures ModifyConversationsArgsIntended([(MetaQuery, Str("x"))], true, req)
      == [(MetaQuery, Arr([(IntKey(0), VendorClause(req.vendorId))]))]
  {
  }

  /** `set_restapi_permission`: sellers are let through and nobody already allowed is turned away. */
  function SetRestapiPermission(status: bool, req: Request): (r: bool)
    ensures status ==> r
    ensures req.isSeller ==> r
    ensures r ==> status || req.isSeller
  {
    status || req.isSeller
  }

  /**
   * `allow_vendor_to_view_conversation`: a vendor may view a conversation tagged
   * with its id (PHP's loose `==` against the stored meta, '' when untagged); an
   * earlier grant is never revoked.
   */
  function AllowVendorToViewConversation(status: bool, req: Request, recipientVid: string): (r: bool)
    ensures status ==> r
    ensures !status ==> (r <==> LooseEquals(req.vendorId, recipientVid))
  {
    if LooseEquals(req.vendorId, recipientVid) then true else status
  }

  /** An untagged conversation grants nothing; a conversation tagged with a vendor's id opens for that vendor. */
  lemma ViewGrantForTag(req: Request)
    ensures !AllowVendorToViewConversation(false, req, "")
    ensures AllowVendorToViewConversation(false, req, DecimalString(req.vendorId))
  {
    LooseEqualsRendering(req.vendorId);
  }

  /** A tag holding the vendor's id with whitespace around it, such as "7 ", still opens for that vendor. */
  lemma ViewGrantForPaddedTag(req: Request, before: string, after: string)
    requires AllWhitespace(before) && AllWhitespace(after)
    ensures AllowVendorToViewConversation(false, req, before + DecimalString(req.vendorId) + after)
  {
    LooseEqualsPadded(req.vendorId, before, after);
  }

  /** A tag lets in at most one vendor: no other vendor gains access through it. */
  lemma ViewGrantIsPerVendor(a: Request, b: Request, recipientVid: string)
    requires AllowVendorToViewConversation(false, a, recipientVid)
    requires AllowVendorToViewConversation(false, b, recipientVid)
    ensures a.vendorId == b.vendorId
  {
    LooseEqualsUnique(a.vendorId, b.vendorId, recipientVid);
  }

  /** `add_vendor_id_as_valid_post_author`: the vendor id joins the list once, after the existing authors. */
  function AddVendorIdAsValidPostAuthor(authors: seq<int>, req: Request): (r: seq<int>)
    ensures req.vendorId in r
    ensures |authors| <= |r| <= |authors| + 1 && r[..|authors|] == authors
    ensures |r| == |authors| + 1 <==> req.vendorId !in authors
  {
    if req.vendorId !in authors then authors + [req.vendorId] else authors
  }

  /** Adding the vendor twice is adding it once. */
  lemma AddVendorIdIdempotent(authors: seq<int>, req: Request)
    ensures AddVendorIdAsValidPostAuthor(AddVendorIdAsValidPostAuthor(authors, req), req)
      == AddVendorIdAsValidPostAuthor(authors, req)
  {
  }

  const ReplyLeft := "wsx-reply-left"

  /** `add_conversation_vendor_reply_class`: replies not written by the current vendor are drawn on the left. */
  function AddConversationVendorReplyClass(cls: string, req: Request, author: string): (r: string)
    ensures r == cls || r == ReplyLeft
    ensures r != cls ==> !LooseEquals(req.vendorId, author)
    ensures !LooseEquals(req.vendorId, author) ==> r == ReplyLeft
  {
    if !LooseEquals(req.vendorId, author) then ReplyLeft else cls
  }

  /** A reply whose author is the vendor's id with whitespace around it keeps its class. */
  lemma ReplyClassForPaddedAuthor(cls: string, req: Request, before: string, after: string)
    requires AllWhitespace(before) && AllWhitespace(after)
    ensures AddConversationVendorReplyClass(cls, req, before + DecimalString(req.vendorId) + after) == cls
  {
    LooseEqualsPadded(req.vendorId, before, after);
  }

  /** The vendor's own replies keep their class; another user's replies move left. */
  lemma ReplyClassByAuthor(cls: string, req: Request, other: int)
    ensures AddConversationVendorReplyClass(cls, req, DecimalString(req.vendorId)) == cls
    ensures other != req.vendorId ==> AddConversationVendorReplyClass(cls, req, DecimalString(other)) == ReplyLeft
  {
    LooseEqualsRendering(req.vendorId);
    DecimalStringRoundTrip(other);
  }
}
