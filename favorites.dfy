/** The favourites page: the teachers whose id is among the favourite ids. */
module Favorites {
  import Lists
  import opened DataContext

  /** `favoriteTeachers`: the teachers whose id is a favourite, in teacher
      order, never more than there are teachers. */
  function FavoriteTeachers(ts: seq<Teacher>, favorites: seq<int>): (r: seq<Teacher>)
    ensures |r| <= |ts|
    ensures forall t :: t in r <==> t in ts && t.id in favorites
    ensures forall t :: multiset(r)[t] == if t.id in favorites then multiset(ts)[t] else 0
    ensures Lists.IsSubsequence(r, ts)
  {
    Lists.FilterMultiplicity((t: Teacher) => t.id in favorites, ts);
    Lists.FilterIsSubsequence((t: Teacher) => t.id in favorites, ts);
    Lists.Filter((t: Teacher) => t.id in favorites, ts)
  }

  /** Only which ids are favourites matters, not their order or repetition. */
  lemma OnlyTheSetOfIdsMatters(ts: seq<Teacher>, f1: seq<int>, f2: seq<int>)
    requires forall id :: id in f1 <==> id in f2
    ensures FavoriteTeachers(ts, f1) == FavoriteTeachers(ts, f2)
  {
    Lists.FilterAgree((t: Teacher) => t.id in f1, (t: Teacher) => t.id in f2, ts);
  }

  /** A favourite id that no teacher has changes nothing. */
  lemma UnknownIdsIgnored(ts: seq<Teacher>, favorites: seq<int>, id: int)
    requires forall i :: 0 <= i < |ts| ==> ts[i].id != id
    ensures FavoriteTeachers(ts, favorites + [id]) == FavoriteTeachers(ts, favorites)
  {
    Lists.FilterAgree((t: Teacher) => t.id in favorites + [id], (t: Teacher) => t.id in favorites, ts);
  }

  /** Toggling an id flips whether the teachers with that id are shown and
      leaves every other teacher as it was. */
  lemma ToggleFlipsTeacher(ts: seq<Teacher>, favorites: seq<int>, id: int)
    ensures FavoriteTeachers(ts, Lists.Toggle(favorites, id))
         == Lists.Filter((t: Teacher) => if t.id == id then id !in favorites else t.id in favorites, ts)
  {
    var toggled := Lists.Toggle(favorites, id);
    Lists.FilterAgree((t: Teacher) => t.id in toggled,
                      (t: Teacher) => if t.id == id then id !in favorites else t.id in favorites, ts);
  }
}
