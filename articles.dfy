/**
 * The article records the controller keeps and the three pure list
 * transformations it applies to them: the spread append of a created
 * article, the `map` that swaps in an updated article by id, and the
 * `filter` that drops a deleted article by id.
 */
module Articles {

  /** A record as the server returns it; `article_id` is its identity. */
  datatype Article = Article(article_id: int, title: string, text: string, topic: string)

  /** The payload the article form hands to create and update (no id). */
  datatype ArticleFields = ArticleFields(title: string, text: string, topic: string)

  /** Some entry of `s` carries the identifier `id`. */
  predicate HasId(s: seq<Article>, id: int)
  {
    exists i :: 0 <= i < |s| && s[i].article_id == id
  }

  /** No two entries of `s` share an identifier. */
  predicate UniqueIds(s: seq<Article>)
  {
    forall i, j :: 0 <= i < j < |s| ==> s[i].article_id != s[j].article_id
  }

  /** How many entries of `s` carry the identifier `id`. */
  function CountId(s: seq<Article>, id: int): (n: nat)
    ensures n <= |s|
    ensures n == 0 <==> !HasId(s, id)
  {
    if s == [] then 0
    else (if s[0].article_id == id then 1 else 0) + CountId(s[1..], id)
  }

  /**
   * `articles.map(art => art.article_id === id ? a : art)`: every entry
   * with identifier `id` becomes `a`, every other entry stays where it was.
   */
  function ReplaceById(s: seq<Article>, id: int, a: Article): (r: seq<Article>)
    ensures |r| == |s|
    ensures forall i :: 0 <= i < |s| ==> r[i] == (if s[i].article_id == id then a else s[i])
  {
    if s == [] then []
    else [if s[0].article_id == id then a else s[0]] + ReplaceById(s[1..], id, a)
  }

  /**
   * `articles.filter(art => art.article_id !== id)`: exactly the entries
   * whose identifier is not `id` remain.
   */
  function RemoveById(s: seq<Article>, id: int): (r: seq<Article>)
    ensures |r| <= |s|
    ensures forall x :: x in r <==> x in s && x.article_id != id
  {
    if s == [] then []
    else if s[0].article_id == id then RemoveById(s[1..], id)
    else [s[0]] + RemoveById(s[1..], id)
  }

  /** Filtering by id distributes over concatenation: the relative order of what remains is kept. */
  lemma {:induction false} RemoveByIdConcat(s: seq<Article>, t: seq<Article>, id: int)
    ensures RemoveById(s + t, id) == RemoveById(s, id) + RemoveById(t, id)
    decreases |s|
  {
    if s == [] {
      assert s + t == t;
    } else {
      assert (s + t)[1..] == s[1..] + t;
      RemoveByIdConcat(s[1..], t, id);
    }
  }

  /** The filter drops exactly the entries that carry `id`. */
  lemma {:induction false} RemoveByIdLength(s: seq<Article>, id: int)
    ensures |RemoveById(s, id)| == |s| - CountId(s, id)
    decreases |s|
  {
    if s != [] {
      RemoveByIdLength(s[1..], id);
    }
  }

  /** When `id` is absent the filter leaves the list as it was. */
  lemma {:induction false} RemoveAbsentId(s: seq<Article>, id: int)
    requires !HasId(s, id)
    ensures RemoveById(s, id) == s
    decreases |s|
  {
    if s != [] {
      assert s[0].article_id != id;
      assert !HasId(s[1..], id) by {
        forall i | 0 <= i < |s[1..]| ensures s[1..][i].article_id != id {
          assert s[1..][i] == s[i + 1];
        }
      }
      RemoveAbsentId(s[1..], id);
      assert [s[0]] + s[1..] == s;
    }
  }

  /** With unique ids, the entries before and after the one holding `id` do not hold it. */
  lemma OthersLackUniqueId(s: seq<Article>, id: int, k: nat)
    requires UniqueIds(s)
    requires k < |s| && s[k].article_id == id
    ensures !HasId(s[..k], id) && !HasId(s[k + 1..], id)
  {
  }

  /** When only the entry at index `k` holds `id`, the filter removes that entry alone. */
  lemma RemoveOnlyAt(s: seq<Article>, id: int, k: nat)
    requires k < |s| && s[k].article_id == id
    requires !HasId(s[..k], id) && !HasId(s[k + 1..], id)
    ensures RemoveById(s, id) == s[..k] + s[k + 1..]
  {
    var pre, post := s[..k], s[k + 1..];
    calc {
      RemoveById(s, id);
      { assert s == (pre + [s[k]]) + post; }
      RemoveById((pre + [s[k]]) + post, id);
      { RemoveByIdConcat(pre + [s[k]], post, id); }
      RemoveById(pre + [s[k]], id) + RemoveById(post, id);
      { RemoveByIdConcat(pre, [s[k]], id); }
      (RemoveById(pre, id) + RemoveById([s[k]], id)) + RemoveById(post, id);
      { assert [s[k]][1..] == []; }
      (RemoveById(pre, id) + []) + RemoveById(post, id);
      { RemoveAbsentId(pre, id); RemoveAbsentId(post, id); }
      (pre + []) + post;
    }
  }

  /**
   * Deleting an id held by exactly the entry at index `k` removes that one
   * entry: the rest keep their order and the list shrinks by one.
   */
  lemma RemoveUniqueId(s: seq<Article>, id: int, k: nat)
    requires UniqueIds(s)
    requires k < |s| && s[k].article_id == id
    ensures RemoveById(s, id) == s[..k] + s[k + 1..]
    ensures |RemoveById(s, id)| == |s| - 1
  {
    OthersLackUniqueId(s, id, k);
    RemoveOnlyAt(s, id, k);
  }

  /** When `id` is absent the map leaves the list as it was. */
  lemma ReplaceAbsentId(s: seq<Article>, id: int, a: Article)
    requires !HasId(s, id)
    ensures ReplaceById(s, id, a) == s
  {
  }

  /** Appending an article whose id is new keeps the identifiers unique. */
  lemma AppendKeepsUniqueIds(s: seq<Article>, a: Article)
    requires UniqueIds(s) && !HasId(s, a.article_id)
    ensures UniqueIds(s + [a])
  {
  }

  /** Replacing by id with an article that keeps that id keeps the identifiers unique. */
  lemma ReplaceKeepsUniqueIds(s: seq<Article>, id: int, a: Article)
    requires UniqueIds(s) && a.article_id == id
    ensures UniqueIds(ReplaceById(s, id, a))
  {
  }

  /** Putting an article with a new id in front keeps the identifiers unique. */
  lemma PrependKeepsUniqueIds(a: Article, s: seq<Article>)
    requires UniqueIds(s) && !HasId(s, a.article_id)
    ensures UniqueIds([a] + s)
  {
  }

  /** Filtering never introduces a repeated identifier. */
  lemma {:induction false} RemoveKeepsUniqueIds(s: seq<Article>, id: int)
    requires UniqueIds(s)
    ensures UniqueIds(RemoveById(s, id))
    decreases |s|
  {
    if s != [] {
      var tail := s[1..];
      var rest := RemoveById(tail, id);
      assert UniqueIds(tail) by {
        forall i, j | 0 <= i < j < |tail| ensures tail[i].article_id != tail[j].article_id {
          assert tail[i] == s[i + 1] && tail[j] == s[j + 1];
        }
      }
      RemoveKeepsUniqueIds(tail, id);
      if s[0].article_id != id {
        assert !HasId(rest, s[0].article_id) by {
          forall j | 0 <= j < |rest| ensures rest[j].article_id != s[0].article_id {
            assert rest[j] in tail;
            var m :| 0 <= m < |tail| && tail[m] == rest[j];
            assert s[m + 1] == rest[j];
          }
        }
        PrependKeepsUniqueIds(s[0], rest);
      }
    }
  }
}
