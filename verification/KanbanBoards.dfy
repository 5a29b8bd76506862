/**
 How tools.py finds the one board a request names.  Unicode normalization and case folding are the
 parameter `fold`.
 */
module KanbanBoards {
  import opened KanbanProtocol

  /** One active board of the listing; its name falls back to its slug. */
  datatype Listed = Listed(slug: Slug, name: string)

  predicate Names(requested: string, b: Listed, fold: string -> string) {
    fold(requested) == fold(b.slug) || fold(requested) == fold(b.name)
  }

  /** The slugs of the boards that the request names. */
  function Matching(requested: string, boards: seq<Listed>, fold: string -> string): set<Slug> {
    set i | 0 <= i < |boards| && Names(requested, boards[i], fold) :: boards[i].slug
  }

  /** `_resolve_exact_kanban_board`. */
  ghost function Resolve(requested: string, boards: seq<Listed>, fold: string -> string): (c: Choice)
    ensures c.Chosen? ==> exists i :: 0 <= i < |boards| && boards[i].slug == c.slug && Names(requested, boards[i], fold)
  {
    var matches := Matching(requested, boards, fold);
    if matches == {} then NotFound
    else if |matches| != 1 then Ambiguous
    else
      var slug :| slug in matches;
      Chosen(slug)
  }

  /** A board is chosen exactly when all boards that the request names are that one board; two names of
      the same board are no conflict, one name of two boards always is. */
  lemma ChosenExactlyWhen(requested: string, boards: seq<Listed>, fold: string -> string, slug: Slug)
    ensures Resolve(requested, boards, fold) == Chosen(slug) <==>
              && (exists i :: 0 <= i < |boards| && boards[i].slug == slug && Names(requested, boards[i], fold))
              && (forall i :: 0 <= i < |boards| && Names(requested, boards[i], fold) ==> boards[i].slug == slug)
    ensures Resolve(requested, boards, fold).NotFound? <==> forall i :: 0 <= i < |boards| ==> !Names(requested, boards[i], fold)
  {
    var matches := Matching(requested, boards, fold);
    hide Names;
    assert forall i :: 0 <= i < |boards| && Names(requested, boards[i], fold) ==> boards[i].slug in matches;
    if |matches| == 1 {
      var only :| only in matches;
      assert |matches - {only}| == 0;
      assert matches == {only};
    }
    if (exists i :: 0 <= i < |boards| && boards[i].slug == slug && Names(requested, boards[i], fold))
       && (forall i :: 0 <= i < |boards| && Names(requested, boards[i], fold) ==> boards[i].slug == slug) {
      assert matches == {slug};
    }
  }
}
