/**
 * Matching one command token against the placeholder pattern
 * `(\S+)?\$\{([^}]+)\}` with Python's `re.match`: the match is anchored at
 * the start of the token, group 1 is the inline prefix and group 2 the
 * input id.
 */
module Placeholder {
  import opened Wrappers
  import opened Text

  /** A successful match: group 1 (absent when it did not take part) and group 2. */
  datatype Match = Match(prefix: Option<string>, id: string)

  /** The index of the first `}` at or after `j`. */
  function FindClose(t: string, j: nat): (r: Option<nat>)
    decreases |t| - j
    ensures r.Some? ==> j <= r.value < |t| && t[r.value] == '}'
    ensures r.Some? ==> forall m :: j <= m < r.value ==> t[m] != '}'
    ensures r.None? ==> forall m :: j <= m < |t| ==> t[m] != '}'
  {
    if j >= |t| then None
    else if t[j] == '}' then Some(j)
    else FindClose(t, j + 1)
  }

  /** `\$\{([^}]+)\}` tried at index `p`: the group-2 text when it matches there. */
  function IdAt(t: string, p: nat): (r: Option<string>)
    ensures r.Some? <==> exists q :: ClosesAt(t, p, q)
    ensures forall q: int :: ClosesAt(t, p, q) ==> r == Some(t[p + 2..q])
  {
    if p + 1 < |t| && t[p] == '$' && t[p + 1] == '{' then
      match FindClose(t, p + 2)
      case Some(q) => if q > p + 2 then assert ClosesAt(t, p, q); Some(t[p + 2..q]) else None
      case None => None
    else None
  }

  /**
   * `${`, then a non-empty run of characters other than `}`, then the `}` at
   * index `q`: the text `t[p..q+1]` is one complete marker.
   */
  predicate ClosesAt(t: string, p: nat, q: int) {
    && p + 2 < q < |t|
    && t[p] == '$' && t[p + 1] == '{' && t[q] == '}'
    && forall m :: p + 2 <= m < q ==> t[m] != '}'
  }

  predicate NoSpaceBefore(t: string, p: nat)
    requires p <= |t|
  {
    forall m :: 0 <= m < p ==> !IsSpace(t[m])
  }

  /**
   * The whole pattern matches at the start of `t` with its `${` at index `p`:
   * group 1 is `t[..p]` (non-whitespace, absent when `p` is 0).
   */
  predicate OpensAt(t: string, p: nat) {
    p <= |t| && NoSpaceBefore(t, p) && IdAt(t, p).Some?
  }

  /** The match when the pattern's `${` is taken at index `p`. */
  function MatchAt(t: string, p: nat): Match
    requires p <= |t| && IdAt(t, p).Some?
  {
    Match(if p == 0 then None else Some(t[..p]), IdAt(t, p).value)
  }

  /**
   * The backtracking of `re.match`: the greedy group 1 first takes as much
   * as it can and gives characters back one at a time; as a last resort it
   * does not take part at all.
   */
  function MatchDown(t: string, p: nat): Option<Match>
    requires p <= |t|
    decreases p
  {
    if OpensAt(t, p) then Some(MatchAt(t, p))
    else if p == 0 then None
    else MatchDown(t, p - 1)
  }

  /** `re.match(r"(\S+)?\$\{([^}]+)\}", t)`. */
  function MatchToken(t: string): Option<Match> {
    MatchDown(t, |t|)
  }

  /** `p'` is the last index up to `p` where the pattern can open. */
  predicate LastOpen(t: string, p: nat, p': nat) {
    p' <= p && OpensAt(t, p') && forall p'': nat :: p' < p'' <= p ==> !OpensAt(t, p'')
  }

  lemma LastOpenExtend(t: string, p: nat, p': nat)
    requires p > 0 && LastOpen(t, p - 1, p') && !OpensAt(t, p)
    ensures LastOpen(t, p, p')
  {
    forall p'': nat | p' < p'' <= p ensures !OpensAt(t, p'') {
      if p'' < p {
        assert p' < p'' <= p - 1;
      }
    }
  }

  lemma MatchDownSpec(t: string, p: nat)
    requires p <= |t|
    ensures MatchDown(t, p).None? <==> forall p': nat :: p' <= p ==> !OpensAt(t, p')
    ensures MatchDown(t, p).Some? ==> exists p': nat :: LastOpen(t, p, p') && MatchDown(t, p).value == MatchAt(t, p')
  {
    MatchDownNone(t, p);
    MatchDownSome(t, p);
  }

  lemma {:induction false} MatchDownNone(t: string, p: nat)
    requires p <= |t|
    ensures MatchDown(t, p).None? <==> forall p': nat :: p' <= p ==> !OpensAt(t, p')
    decreases p
  {
    if !OpensAt(t, p) && p > 0 {
      MatchDownNone(t, p - 1);
    }
  }

  lemma {:induction false} MatchDownSome(t: string, p: nat)
    requires p <= |t|
    ensures MatchDown(t, p).Some? ==> exists p': nat :: LastOpen(t, p, p') && MatchDown(t, p).value == MatchAt(t, p')
    decreases p
  {
    if OpensAt(t, p) {
      assert LastOpen(t, p, p);
    } else if p > 0 && MatchDown(t, p - 1).Some? {
      assert MatchDown(t, p) == MatchDown(t, p - 1);
      MatchDownSome(t, p - 1);
      var p': nat :| LastOpen(t, p - 1, p') && MatchDown(t, p - 1).value == MatchAt(t, p');
      LastOpenExtend(t, p, p');
    }
  }

  /**
   * A token is a placeholder exactly when some `${id}` marker whose prefix
   * is whitespace-free can be matched; the match then belongs to the LAST
   * such marker: its id is that marker's content, the inline prefix is all
   * the text before it (absent when empty), and text after its `}` is ignored.
   */
  lemma MatchTokenSpec(t: string, p: nat)
    requires OpensAt(t, p) && forall p': nat :: p < p' <= |t| ==> !OpensAt(t, p')
    ensures MatchToken(t) == Some(Match(if p == 0 then None else Some(t[..p]), IdAt(t, p).value))
  {
    MatchDownSpec(t, |t|);
    var p': nat :| LastOpen(t, |t|, p') && MatchDown(t, |t|).value == MatchAt(t, p');
    assert p' == p;
  }

  lemma MatchTokenNone(t: string)
    ensures MatchToken(t).None? <==> forall p: nat :: !OpensAt(t, p)
  {
    MatchDownSpec(t, |t|);
    if MatchToken(t).None? {
      forall p: nat ensures !OpensAt(t, p) {
        if p > |t| {
          assert !OpensAt(t, p);
        }
      }
    }
  }

  /** The id is never empty and never contains `}`. */
  lemma MatchIdWellFormed(t: string)
    requires MatchToken(t).Some?
    ensures MatchToken(t).value.id != [] && '}' !in MatchToken(t).value.id
    ensures MatchToken(t).value.prefix.Some? ==> MatchToken(t).value.prefix.value != []
  {
    MatchDownSpec(t, |t|);
    var p: nat :| LastOpen(t, |t|, p) && MatchDown(t, |t|).value == MatchAt(t, p);
    var q := FindClose(t, p + 2).value;
    assert ClosesAt(t, p, q);
  }

  /** A token without `$` never matches. */
  lemma NoDollarNoMatch(t: string)
    requires '$' !in t
    ensures MatchToken(t).None?
  {
    MatchTokenNone(t);
    forall p: nat ensures !OpensAt(t, p) {
      if p < |t| {
        assert t[p] in t;
      }
    }
  }

  /** A bare marker `${id}` (with no `$` or `}` in `id`) matches with no prefix and id `id`. */
  lemma BareMarker(id: string)
    requires id != [] && '}' !in id && '$' !in id
    ensures MatchToken("${" + id + "}") == Some(Match(None, id))
  {
    var t := "${" + id + "}";
    assert forall m :: 2 <= m < |t| - 1 ==> t[m] == id[m - 2] && id[m - 2] in id;
    assert ClosesAt(t, 0, |t| - 1);
    assert t[2..|t| - 1] == id;
    forall p: nat | 0 < p <= |t| ensures !OpensAt(t, p) {
      if p < |t| - 1 {
        assert t[p] != '$';
      }
    }
    MatchTokenSpec(t, 0);
  }
}
