/** The decision step of scripts/export_customers_natural.py: the
    assistant's reply naming a show is classified, and only a reply that
    is a product id leads to the customer export. */
module NaturalExport {
  import opened Text

  /** An active product of the catalogue: `{"id": ..., "name": ...}`. */
  datatype Product = Product(id: string, name: string)

  /** The three readings of the assistant's reply. */
  datatype Reply =
    | Matched(productId: string)
    | Ambiguous(candidates: string)
    | NoMatch

  const ProductPrefix: string := "prod_"
  const UnclearMarker: string := "UNCLEAR"

  /** `identify_product` returns the reply text stripped of surrounding
      whitespace. */
  function ReplyText(raw: string): string {
    Strip(raw)
  }

  /** The branches of `main` on the stripped reply: a product id, a list
      of candidates after the marker, or anything else. */
  function Classify(reply: string): Reply {
    if StartsWith(reply, ProductPrefix) then Matched(reply)
    else if StartsWith(reply, UnclearMarker) then Ambiguous(Strip(RemoveAll(reply, UnclearMarker)))
    else NoMatch
  }

  /** The reply is a product id exactly when it starts with "prod_", and
      then the whole reply is taken as the id. */
  lemma MatchedExactlyOnProductPrefix(reply: string)
    ensures Classify(reply).Matched? <==> StartsWith(reply, ProductPrefix)
    ensures Classify(reply).Matched? ==> Classify(reply).productId == reply
  {
  }

  /** A text whose first character differs from the prefix's does not
      start with it. */
  lemma FirstCharDiffers(s: string, p: string)
    requires s != [] && p != [] && s[0] != p[0]
    ensures !StartsWith(s, p)
  {
    if |p| <= |s| {
      assert s[..|p|][0] == s[0];
    }
  }

  /** No reply starts with both prefixes. */
  lemma PrefixesExclusive(reply: string)
    ensures !(StartsWith(reply, ProductPrefix) && StartsWith(reply, UnclearMarker))
  {
    if StartsWith(reply, ProductPrefix) {
      assert reply[..|ProductPrefix|][0] == reply[0] == 'p';
      FirstCharDiffers(reply, UnclearMarker);
    }
  }

  /** The reply is ambiguous exactly when it starts with "UNCLEAR"; the
      candidates shown are the reply with every non-overlapping
      "UNCLEAR" removed, then stripped. */
  lemma AmbiguousExactlyOnMarker(reply: string)
    ensures Classify(reply).Ambiguous? <==> StartsWith(reply, UnclearMarker)
    ensures Classify(reply).Ambiguous? ==>
      Classify(reply).candidates == Strip(RemoveAll(reply, UnclearMarker))
  {
    PrefixesExclusive(reply);
  }

  /** Everything else, "NOMATCH" and the empty reply included, is no match. */
  lemma NoMatchOtherwise(reply: string)
    ensures Classify(reply) == NoMatch <==>
      !StartsWith(reply, ProductPrefix) && !StartsWith(reply, UnclearMarker)
    ensures Classify("NOMATCH") == NoMatch && Classify("") == NoMatch
  {
    PrefixesExclusive(reply);
    FirstCharDiffers("NOMATCH", ProductPrefix);
    FirstCharDiffers("NOMATCH", UnclearMarker);
  }

  /** A reply of the marker followed by a candidate list that does not
      repeat it shows exactly that list, stripped. */
  lemma UnclearListing(rest: string)
    requires !Contains(rest, UnclearMarker)
    ensures Classify(UnclearMarker + rest) == Ambiguous(Strip(rest))
  {
    var reply := UnclearMarker + rest;
    assert reply[..|UnclearMarker|] == UnclearMarker;
    assert reply[|UnclearMarker|..] == rest;
    FirstCharDiffers(reply, ProductPrefix);
    RemoveAllAbsent(rest, UnclearMarker);
  }

  /** The name printed for a matched id: the name of the first product
      with that id, or the id itself when there is none. */
  function MatchedName(products: seq<Product>, productId: string): string {
    if products == [] then productId
    else if products[0].id == productId then products[0].name
    else MatchedName(products[1..], productId)
  }

  /** No product before index `i` has the id. */
  predicate NoEarlier(products: seq<Product>, i: int, productId: string)
    requires 0 <= i <= |products|
  {
    forall j :: 0 <= j < i ==> products[j].id != productId
  }

  lemma {:induction false} MatchedNameIsFirst(products: seq<Product>, productId: string)
    ensures (forall i :: 0 <= i < |products| ==> products[i].id != productId) ==>
      MatchedName(products, productId) == productId
    ensures forall i :: 0 <= i < |products| && products[i].id == productId && NoEarlier(products, i, productId) ==>
      MatchedName(products, productId) == products[i].name
  {
    if products != [] {
      var tail := products[1..];
      MatchedNameIsFirst(tail, productId);
      if products[0].id != productId {
        forall i | 0 <= i < |products| && products[i].id == productId && NoEarlier(products, i, productId)
          ensures MatchedName(products, productId) == products[i].name
        {
          assert i > 0 && tail[i - 1] == products[i];
          forall j | 0 <= j < i - 1 ensures tail[j].id != productId {
            assert tail[j] == products[j + 1];
          }
          assert NoEarlier(tail, i - 1, productId);
        }
        if forall i :: 0 <= i < |products| ==> products[i].id != productId {
          assert forall i :: 0 <= i < |tail| ==> tail[i] == products[i + 1];
        }
      }
    }
  }

  /** What `main` does once the catalogue is listed: stop when it is empty,
      export for a matched id (printing its name), print the candidates, or
      print the whole catalogue. */
  datatype Decision =
    | NoActiveProducts
    | Export(productId: string, shownName: string)
    | AskToNarrow(candidates: string)
    | ShowCatalogue(available: seq<Product>)

  /** The process exit status of each outcome. */
  function ExitStatus(d: Decision): int {
    if d.Export? then 0 else 1
  }

  /** `main` after the argument and key checks; `rawReply` is the
      assistant's answer, only consulted when the catalogue is not empty. */
  function Decide(products: seq<Product>, rawReply: string): Decision {
    if products == [] then NoActiveProducts
    else
      match Classify(ReplyText(rawReply))
      case Matched(productId) => Export(productId, MatchedName(products, productId))
      case Ambiguous(candidates) => AskToNarrow(candidates)
      case NoMatch => ShowCatalogue(products)
  }

  /** Only a non-empty catalogue and a reply that, once stripped, starts
      with "prod_" lead to the export, for the stripped reply; every other
      outcome ends with status 1. */
  lemma OnlyMatchedExports(products: seq<Product>, rawReply: string)
    ensures Decide(products, rawReply).Export? <==>
      products != [] && StartsWith(Strip(rawReply), ProductPrefix)
    ensures Decide(products, rawReply).Export? ==>
      Decide(products, rawReply).productId == Strip(rawReply) &&
      Decide(products, rawReply).shownName == MatchedName(products, Strip(rawReply))
    ensures ExitStatus(Decide(products, rawReply)) == 0 <==> Decide(products, rawReply).Export?
  {
    MatchedExactlyOnProductPrefix(Strip(rawReply));
  }

  /** Whitespace around the assistant's answer changes nothing. */
  lemma PaddingIsIgnored(products: seq<Product>, w1: string, rawReply: string, w2: string)
    requires AllSpace(w1) && AllSpace(w2)
    ensures Decide(products, w1 + rawReply + w2) == Decide(products, rawReply)
  {
    StripPadding(w1, rawReply, w2);
  }

  /** The stripped reply is already stripped. */
  lemma ReplyTextIdempotent(rawReply: string)
    ensures ReplyText(ReplyText(rawReply)) == ReplyText(rawReply)
    ensures var r := ReplyText(rawReply); r == [] || (!IsSpace(r[0]) && !IsSpace(r[|r| - 1]))
  {
    StripIdempotent(rawReply);
    StripEdges(rawReply);
  }

  /** The candidates shown for an ambiguous reply have no surrounding
      whitespace. */
  lemma CandidatesAreStripped(reply: string)
    requires Classify(reply).Ambiguous?
    ensures var c := Classify(reply).candidates; c == [] || (!IsSpace(c[0]) && !IsSpace(c[|c| - 1]))
  {
    StripEdges(RemoveAll(reply, UnclearMarker));
  }
}
