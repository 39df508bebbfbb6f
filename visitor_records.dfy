/**
 * The visitor record held by the list view and the two pure list updates
 * the view applies after a successful create or update.
 */
module VisitorRecords {

  /** One row of the visitor table (the `VisitorsData` interface). */
  datatype Visitor = Visitor(id: int, name: string, email: string, phoneNumber: string)

  /** The list after a create: the record the server returned goes at the end. */
  function Appended(vs: seq<Visitor>, created: Visitor): (r: seq<Visitor>)
    ensures |r| == |vs| + 1
    ensures r[..|vs|] == vs
    ensures r[|vs|] == created
    ensures multiset(r)[created] == multiset(vs)[created] + 1
    ensures forall v :: v != created ==> multiset(r)[v] == multiset(vs)[v]
  {
    vs + [created]
  }

  /**
   * The list after an update: every record whose id equals `id` is replaced
   * by `updated`, every other record keeps its place.
   */
  function ReplaceById(vs: seq<Visitor>, id: int, updated: Visitor): (r: seq<Visitor>)
    ensures |r| == |vs|
    ensures forall i :: 0 <= i < |vs| ==> r[i] == if vs[i].id == id then updated else vs[i]
  {
    if vs == [] then []
    else (if vs[0].id == id then [updated] else [vs[0]]) + ReplaceById(vs[1..], id, updated)
  }

  /** A second update with the same id and record changes nothing more. */
  lemma ReplaceByIdIdempotent(vs: seq<Visitor>, id: int, updated: Visitor)
    ensures ReplaceById(ReplaceById(vs, id, updated), id, updated) == ReplaceById(vs, id, updated)
  {
  }

  /** An update whose id matches no record leaves the list as it was. */
  lemma ReplaceByIdNoMatch(vs: seq<Visitor>, id: int, updated: Visitor)
    requires forall i :: 0 <= i < |vs| ==> vs[i].id != id
    ensures ReplaceById(vs, id, updated) == vs
  {
  }

  /**
   * When the server echoes the edited id, the list keeps its ids position by
   * position, and the edited id occurs only where it occurred before.
   */
  lemma ReplaceByIdKeepsIds(vs: seq<Visitor>, id: int, updated: Visitor)
    requires updated.id == id
    ensures forall i :: 0 <= i < |vs| ==> ReplaceById(vs, id, updated)[i].id == vs[i].id
  {
  }
}
