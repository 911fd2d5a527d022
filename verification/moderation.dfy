/** Keyword moderation: the Aho-Corasick matcher of security/moderation.py. */
module Moderation {
  import opened Text

  // ------------------------------------------------------------ what the matcher must compute

  ghost predicate IsSuffix(u: string, w: string)
    ensures IsSuffix(u, w) ==> |u| <= |w|
  {
    u == w || (w != "" && IsSuffix(u, w[1..]))
  }

  lemma {:induction false} SuffixIsTail(u: string, w: string)
    ensures IsSuffix(u, w) <==> |u| <= |w| && w[|w| - |u|..] == u
  {
    if u != w && |u| < |w| {
      SuffixIsTail(u, w[1..]);
      assert w[1..][|w| - 1 - |u|..] == w[|w| - |u|..];
    }
  }

  lemma SuffixSplits(u: string, w: string)
    ensures IsSuffix(u, w) <==> exists p: string :: w == Around(p, u, "")
  {
    SuffixIsTail(u, w);
    if IsSuffix(u, w) {
      assert w == Around(w[..|w| - |u|], u, "");
    }
    if p: string :| w == Around(p, u, "") {
      assert w[|p|..] == u;
    }
  }

  lemma {:induction false} SuffixTransitive(t: string, u: string, w: string)
    requires IsSuffix(t, u) && IsSuffix(u, w)
    ensures IsSuffix(t, w)
  {
    if u != w { SuffixTransitive(t, u, w[1..]); }
  }

  function Around(before: string, t: string, after: string): string {
    before + t + after
  }

  /** t is a contiguous piece of the text. */
  ghost predicate OccursIn(t: string, text: string) {
    exists before: string, after: string :: text == Around(before, t, after)
  }

  /** w without its last character, and w with one more. */
  function Front(w: string): string
    requires w != ""
  {
    w[..|w| - 1]
  }

  function Extend(w: string, c: char): (r: string)
    ensures r != "" && Front(r) == w && r[|r| - 1] == c
  {
    w + [c]
  }

  /** The terms that end at the end of w. */
  ghost function Matches(w: string, terms: set<string>): set<string> {
    set t | t in terms && IsSuffix(t, w)
  }

  ghost predicate IsPrefixOfTerm(w: string, terms: set<string>) {
    exists t | t in terms :: w <= t
  }

  /** The terms a list of raw keywords stands for: stripped, folded, blanks dropped. */
  ghost function Dictionary(raw: seq<string>, fold: string -> string): set<string> {
    if raw == [] then {} else
      var term := fold(Strip(raw[|raw| - 1]));
      Dictionary(raw[..|raw| - 1], fold) + if term == "" then {} else {term}
  }

  lemma {:induction false} DictionaryMembers(raw: seq<string>, fold: string -> string, t: string)
    ensures t in Dictionary(raw, fold) <==> t != "" && exists i | 0 <= i < |raw| :: t == fold(Strip(raw[i]))
  {
    if raw != [] {
      DictionaryMembers(raw[..|raw| - 1], fold, t);
    }
  }

  // ------------------------------------------------------------ suffixes inside a prefix-closed set

  ghost predicate PrefixClosed(nodes: set<string>) {
    "" in nodes && forall w {:trigger Front(w)} | w != "" && w in nodes :: Front(w) in nodes
  }

  /** The longest suffix of w that is a node; LongestSuffixIsLongest says so. */
  ghost function LongestSuffix(w: string, nodes: set<string>): (u: string)
    requires "" in nodes
    ensures u in nodes && IsSuffix(u, w)
  {
    if w in nodes then w else LongestSuffix(w[1..], nodes)
  }

  lemma {:induction false} LongestSuffixIsLongest(w: string, nodes: set<string>, v: string)
    requires "" in nodes && v in nodes && IsSuffix(v, w)
    ensures |v| <= |LongestSuffix(w, nodes)|
    ensures IsSuffix(v, LongestSuffix(w, nodes))
  {
    if w !in nodes {
      assert IsSuffix(v, w[1..]);
      LongestSuffixIsLongest(w[1..], nodes, v);
    }
  }

  /** One more character: only the longest suffix so far matters. */
  lemma {:induction false} LongestSuffixStep(w: string, c: char, nodes: set<string>)
    requires PrefixClosed(nodes)
    ensures LongestSuffix(Extend(w, c), nodes) == LongestSuffix(Extend(LongestSuffix(w, nodes), c), nodes)
  {
    if w !in nodes {
      assert Front(Extend(w, c)) !in nodes;
      assert Extend(w, c)[1..] == Extend(w[1..], c);
      LongestSuffixStep(w[1..], c, nodes);
    }
  }

  /** Following one failure link from u keeps the target of the step on c. */
  lemma FailureStep(u: string, c: char, nodes: set<string>)
    requires PrefixClosed(nodes) && u in nodes && u != "" && Extend(u, c) !in nodes
    ensures LongestSuffix(Extend(u, c), nodes) == LongestSuffix(Extend(LongestSuffix(u[1..], nodes), c), nodes)
  {
    assert Extend(u, c)[1..] == Extend(u[1..], c);
    LongestSuffixStep(u[1..], c, nodes);
  }

  /** Terms ending at w are w itself and the terms ending at its failure word. */
  lemma MatchesSplit(w: string, terms: set<string>, nodes: set<string>)
    requires "" in nodes && terms <= nodes && w != ""
    ensures Matches(w, terms) == Own(w, terms) + Matches(LongestSuffix(w[1..], nodes), terms)
  {
    var u := LongestSuffix(w[1..], nodes);
    forall t | t in Matches(w, terms) && t != w ensures t in Matches(u, terms) {
      assert IsSuffix(t, w[1..]);
      LongestSuffixIsLongest(w[1..], nodes, t);
    }
    forall t | t in Matches(u, terms) ensures t in Matches(w, terms) {
      SuffixTransitive(t, u, w[1..]);
      SuffixTransitive(t, w[1..], w);
    }
  }

  /** A state on the longest suffix of the text read sees every term ending there. */
  lemma MatchesAtLongestSuffix(w: string, terms: set<string>, nodes: set<string>)
    requires "" in nodes && terms <= nodes
    ensures Matches(LongestSuffix(w, nodes), terms) == Matches(w, terms)
  {
    var u := LongestSuffix(w, nodes);
    forall t | t in terms ensures IsSuffix(t, u) <==> IsSuffix(t, w) {
      if IsSuffix(t, u) { SuffixTransitive(t, u, w); }
      if IsSuffix(t, w) { LongestSuffixIsLongest(w, nodes, t); }
    }
  }

  ghost function Own(w: string, terms: set<string>): set<string> {
    if w in terms then {w} else {}
  }

  lemma ScanStep(text: string, i: nat, terms: set<string>, nodes: set<string>)
    requires i < |text| && PrefixClosed(nodes) && terms <= nodes
    ensures var u := LongestSuffix(text[..i + 1], nodes);
            && u == LongestSuffix(Extend(LongestSuffix(text[..i], nodes), text[i]), nodes)
            && Seen(text[..i + 1], terms) == Seen(text[..i], terms) + Matches(u, terms)
  {
    assert text[..i + 1] == Extend(text[..i], text[i]);
    LongestSuffixStep(text[..i], text[i], nodes);
    MatchesAtLongestSuffix(text[..i + 1], terms, nodes);
  }

  /** Every term ending at the end of some prefix of the text. */
  ghost function Seen(text: string, terms: set<string>): set<string> {
    if text == "" then {} else Seen(Front(text), terms) + Matches(text, terms)
  }

  lemma {:induction false} SeenIsOccurring(t: string, text: string, terms: set<string>)
    requires t != ""
    ensures t in Seen(text, terms) <==> t in terms && OccursIn(t, text)
  {
    if text != "" {
      SeenIsOccurring(t, Front(text), terms);
      if OccursIn(t, Front(text)) {
        var before: string, after: string :| Front(text) == Around(before, t, after);
        assert text == Around(before, t, after + text[|text| - 1..]);
      }
      if OccursIn(t, text) {
        var before: string, after: string :| text == Around(before, t, after);
        if after != "" {
          assert Front(text) == Around(before, t, Front(after));
        }
      }
      SuffixSplits(t, text);
    }
  }

  // ------------------------------------------------------------ the trie as two inverse tables

  /** State s spells word[s]; index finds the state of a word. */
  datatype Trie = Trie(word: seq<string>, index: map<string, nat>, terms: set<string>)

  ghost predicate IsTrie(edges: seq<map<char, nat>>, t: Trie) {
    && |edges| == |t.word| > 0 && t.word[0] == ""
    && PrefixClosed(t.index.Keys)
    && (forall s | 0 <= s < |t.word| :: t.word[s] in t.index && t.index[t.word[s]] == s)
    && (forall w | w in t.index :: t.index[w] < |t.word| && t.word[t.index[w]] == w)
    && (forall s, c {:trigger c in edges[s]} {:trigger Extend(t.word[s], c)} | 0 <= s < |edges| ::
          c in edges[s] <==> Extend(t.word[s], c) in t.index)
    && (forall s, c {:trigger edges[s][c]} | 0 <= s < |edges| && c in edges[s] ::
          edges[s][c] == t.index[Extend(t.word[s], c)])
    && "" !in t.terms && t.terms <= t.index.Keys
  }

  /** A new state, reached from s on c. */
  function AddEdge(edges: seq<map<char, nat>>, s: nat, c: char): seq<map<char, nat>>
    requires s < |edges|
  {
    var grown: map<char, nat> := edges[s][c := |edges|];
    edges[s := grown] + [map[]]
  }

  ghost function AddWord(t: Trie, w: string): Trie {
    t.(word := t.word + [w], index := t.index[w := |t.word|])
  }

  lemma GrowEdges(edges: seq<map<char, nat>>, t: Trie, s: nat, c: char)
    requires IsTrie(edges, t) && s < |edges| && c !in edges[s]
    ensures var edges', t' := AddEdge(edges, s, c), AddWord(t, Extend(t.word[s], c));
            forall r, d | 0 <= r < |edges'| :: d in edges'[r] <==> Extend(t'.word[r], d) in t'.index
    ensures var edges', t' := AddEdge(edges, s, c), AddWord(t, Extend(t.word[s], c));
            forall r, d | 0 <= r < |edges'| && d in edges'[r] :: edges'[r][d] == t'.index[Extend(t'.word[r], d)]
  {
    var edges', t' := AddEdge(edges, s, c), AddWord(t, Extend(t.word[s], c));
    forall r, d | 0 <= r < |edges'|
      ensures d in edges'[r] <==> Extend(t'.word[r], d) in t'.index
      ensures d in edges'[r] ==> edges'[r][d] == t'.index[Extend(t'.word[r], d)]
    {
      assert Front(Extend(t'.word[r], d)) == t'.word[r];
    }
  }

  lemma GrowTrie(edges: seq<map<char, nat>>, t: Trie, s: nat, c: char)
    requires IsTrie(edges, t) && s < |edges| && c !in edges[s]
    ensures IsTrie(AddEdge(edges, s, c), AddWord(t, Extend(t.word[s], c)))
  {
    var t' := AddWord(t, Extend(t.word[s], c));
    forall x | x in t'.index && x != "" ensures Front(x) in t'.index {}
    GrowEdges(edges, t, s, c);
  }

  /** Every node is a prefix of some term of `cover`. */
  ghost predicate Covered(t: Trie, cover: set<string>) {
    forall w {:trigger IsPrefixOfTerm(w, cover)} | w in t.index && w != "" :: IsPrefixOfTerm(w, cover)
  }

  /** State s as the trie phase leaves it: no failure link, its own term only. */
  ghost predicate Bare(t: Trie, fail: seq<nat>, output: seq<set<string>>, s: nat)
    requires s < |t.word| == |fail| == |output|
  {
    fail[s] == 0 && output[s] == Own(t.word[s], t.terms)
  }

  /** State s with its final failure link and its final output. */
  ghost predicate Linked(t: Trie, fail: seq<nat>, output: seq<set<string>>, s: nat)
    requires s < |t.word| == |fail| == |output| && "" in t.index
  {
    && output[s] == Matches(t.word[s], t.terms)
    && fail[s] == FailureLink(t, s)
  }

  /** The state of the longest proper suffix that is a node. */
  ghost function FailureLink(t: Trie, s: nat): nat
    requires s < |t.word| && "" in t.index
  {
    if t.word[s] == "" then 0 else t.index[LongestSuffix(t.word[s][1..], t.index.Keys)]
  }

  ghost predicate AllBare(t: Trie, fail: seq<nat>, output: seq<set<string>>) {
    && |t.word| == |fail| == |output|
    && forall s {:trigger Bare(t, fail, output, s)} | 0 <= s < |t.word| :: Bare(t, fail, output, s)
  }

  /** Exactly the found states are linked. */
  ghost predicate Progress(t: Trie, fail: seq<nat>, output: seq<set<string>>, found: set<nat>) {
    && |t.word| == |fail| == |output| && "" in t.index
    && (forall s {:trigger Linked(t, fail, output, s)} | 0 <= s < |t.word| && s in found :: Linked(t, fail, output, s))
    && (forall s {:trigger Bare(t, fail, output, s)} | 0 <= s < |t.word| && s !in found :: Bare(t, fail, output, s))
  }

  ghost predicate LinkedUpTo(t: Trie, fail: seq<nat>, output: seq<set<string>>, depth: nat) {
    && |t.word| == |fail| == |output| && "" in t.index
    && (forall s {:trigger Linked(t, fail, output, s)} | 0 <= s < |t.word| && |t.word[s]| <= depth ::
       Linked(t, fail, output, s))
  }

  /** When c cannot be read, the failure link leads to a shorter state from which the same longest suffix is sought. */
  lemma FollowLink(edges: seq<map<char, nat>>, t: Trie, fail: seq<nat>, output: seq<set<string>>, state: nat, c: char,
                   depth: nat)
    requires IsTrie(edges, t) && LinkedUpTo(t, fail, output, depth)
    requires 0 != state < |edges| && c !in edges[state] && |t.word[state]| <= depth
    ensures fail[state] < |edges| && |t.word[fail[state]]| < |t.word[state]|
    ensures LongestSuffix(Extend(t.word[state], c), t.index.Keys)
            == LongestSuffix(Extend(t.word[fail[state]], c), t.index.Keys)
  {
    FailureStep(t.word[state], c, t.index.Keys);
    assert Linked(t, fail, output, state);
  }

  lemma FollowEnd(edges: seq<map<char, nat>>, t: Trie, state: nat, c: char)
    requires IsTrie(edges, t) && state < |edges| && (state == 0 || c in edges[state])
    ensures var target := if c in edges[state] then edges[state][c] else 0;
            target < |edges| && t.word[target] == LongestSuffix(Extend(t.word[state], c), t.index.Keys)
            && |t.word[target]| <= |t.word[state]| + 1
  {
    assert Extend("", c)[1..] == "";
  }

  /** Adding the word of a state as a term. */
  lemma MarkTerm(edges: seq<map<char, nat>>, t: Trie, fail: seq<nat>, output: seq<set<string>>,
                 output': seq<set<string>>, s: nat)
    requires IsTrie(edges, t) && AllBare(t, fail, output) && s < |t.word| && t.word[s] != ""
    requires output' == output[s := output[s] + {t.word[s]}]
    ensures var t' := t.(terms := t.terms + {t.word[s]});
            IsTrie(edges, t') && AllBare(t', fail, output')
  {
    var t' := t.(terms := t.terms + {t.word[s]});
    forall r | 0 <= r < |t.word| ensures Bare(t', fail, output', r) {
      assert Bare(t, fail, output, r);
    }
  }

  // ------------------------------------------------------------ breadth-first search

  /** The states found, those popped, and the queue between. */
  ghost predicate IsFrontier(edges: seq<map<char, nat>>, t: Trie, queue: seq<nat>, popped: set<nat>, found: set<nat>,
                             depth: nat)
    requires IsTrie(edges, t)
  {
    && 0 in popped && popped <= found
    && (forall s | s in found :: s < |t.word| && (s in popped || s in queue))
    && (forall i | 0 <= i < |queue| :: queue[i] in found && queue[i] !in popped)
    && (forall i | 0 <= i < |queue| :: t.word[queue[i]] != "" && depth <= |t.word[queue[i]]| <= depth + 1)
    && (forall i, j | 0 <= i < j < |queue| :: queue[i] != queue[j] && |t.word[queue[i]]| <= |t.word[queue[j]]|)
    // a state is found only through its popped parent
    && (forall s {:trigger Front(t.word[s])} | s in found && t.word[s] != "" :: t.index[Front(t.word[s])] in popped)
  }

  /** All children of a popped state have been found. */
  ghost predicate ChildrenFound(edges: seq<map<char, nat>>, popped: set<nat>, found: set<nat>) {
    forall s, c {:trigger edges[s][c]} | s in popped && s < |edges| && c in edges[s] :: edges[s][c] in found
  }

  /** Breadth-first order: every state no deeper than the queue has been found. */
  lemma {:induction false} ShallowFound(edges: seq<map<char, nat>>, t: Trie, queue: seq<nat>, popped: set<nat>,
                                        found: set<nat>, depth: nat, s: nat)
    requires IsTrie(edges, t) && IsFrontier(edges, t, queue, popped, found, depth)
    requires ChildrenFound(edges, popped, found)
    requires s < |t.word| && (queue == [] || |t.word[s]| <= depth)
    ensures s in found
    decreases |t.word[s]|
  {
    var w := t.word[s];
    if w == "" {
      assert s == t.index[""] == 0;
    } else {
      var p := t.index[Front(w)];
      assert Extend(t.word[p], w[|w| - 1]) == w;
      ShallowFound(edges, t, queue, popped, found, depth, p);
      assert edges[p][w[|w| - 1]] == s;
    }
  }

  lemma PopFrontier(edges: seq<map<char, nat>>, t: Trie, queue: seq<nat>, popped: set<nat>, found: set<nat>, depth: nat)
    requires IsTrie(edges, t) && queue != [] && IsFrontier(edges, t, queue, popped, found, depth)
    ensures IsFrontier(edges, t, queue[1..], popped + {queue[0]}, found, |t.word[queue[0]]|)
  {
    forall s | s in found && s !in popped && s != queue[0] ensures s in queue[1..] {
      var i :| 0 <= i < |queue| && queue[i] == s;
      assert queue[1..][i - 1] == s;
    }
  }

  lemma PushFrontier(edges: seq<map<char, nat>>, t: Trie, queue: seq<nat>, popped: set<nat>, found: set<nat>,
                     state: nat, c: char)
    requires IsTrie(edges, t) && state in popped && state < |edges| && c in edges[state] && edges[state][c] !in found
    requires IsFrontier(edges, t, queue, popped, found, |t.word[state]|)
    ensures IsFrontier(edges, t, queue + [edges[state][c]], popped, found + {edges[state][c]}, |t.word[state]|)
  {
    var target := edges[state][c];
    assert t.word[target] == Extend(t.word[state], c);
  }

  /** The children of a state outside rest, exactly, have been found. */
  ghost predicate FoundButRest(edges: seq<map<char, nat>>, found: set<nat>, state: nat, rest: set<char>)
    requires state < |edges|
  {
    forall c | c in edges[state] :: edges[state][c] in found <==> c !in rest
  }

  lemma NextChild(edges: seq<map<char, nat>>, t: Trie, found: set<nat>, state: nat, rest: set<char>, c: char)
    requires IsTrie(edges, t) && state < |edges| && c in edges[state] && FoundButRest(edges, found, state, rest)
    ensures FoundButRest(edges, found + {edges[state][c]}, state, rest - {c})
  {
    forall c' | c' in edges[state] ensures edges[state][c'] == edges[state][c] ==> c' == c {
      assert t.word[edges[state][c']] == Extend(t.word[state], c');
    }
  }

  /** Every state as short as the first of the queue has been found, and none of its children. */
  lemma FirstOfQueue(edges: seq<map<char, nat>>, t: Trie, queue: seq<nat>, popped: set<nat>, found: set<nat>,
                     depth: nat)
    requires IsTrie(edges, t) && queue != [] && IsFrontier(edges, t, queue, popped, found, depth)
    requires ChildrenFound(edges, popped, found)
    ensures queue[0] < |edges| && queue[0] in found
    ensures forall s | 0 <= s < |edges| && |t.word[s]| <= |t.word[queue[0]]| :: s in found
    ensures forall c | c in edges[queue[0]] :: edges[queue[0]][c] !in found
  {
    var level := |t.word[queue[0]]|;
    assert IsFrontier(edges, t, queue, popped, found, level);
    forall s | 0 <= s < |edges| && |t.word[s]| <= level ensures s in found {
      ShallowFound(edges, t, queue, popped, found, level, s);
    }
    forall c | c in edges[queue[0]] ensures edges[queue[0]][c] !in found {
      assert Front(t.word[edges[queue[0]][c]]) == t.word[queue[0]];
    }
  }

  lemma RootFrontier(edges: seq<map<char, nat>>, t: Trie, queue: seq<nat>, found: set<nat>)
    requires IsTrie(edges, t) && IsFrontier(edges, t, queue, {0}, found, 0)
    requires forall c | c in edges[0] :: edges[0][c] in found
    ensures IsFrontier(edges, t, queue, {0}, found, 1) && ChildrenFound(edges, {0}, found)
    ensures forall s | s in found :: |t.word[s]| <= 1
  {
  }

  lemma EmptyFrontier(edges: seq<map<char, nat>>, t: Trie)
    requires IsTrie(edges, t)
    ensures IsFrontier(edges, t, [], {0}, {0}, 0)
    ensures forall c | c in edges[0] :: edges[0][c] != 0
  {
    forall c | c in edges[0] ensures edges[0][c] != 0 {
      assert t.word[edges[0][c]] == Extend(t.word[0], c);
    }
  }

  /** Children of the root need no search: their failure link is the root. */
  lemma ShortStatesLinked(t: Trie, fail: seq<nat>, output: seq<set<string>>, found: set<nat>)
    requires AllBare(t, fail, output) && "" in t.index && t.index[""] == 0 && "" !in t.terms && t.terms <= t.index.Keys
    requires forall s | s in found :: s < |t.word| && |t.word[s]| <= 1
    ensures Progress(t, fail, output, found)
  {
    forall s | s in found ensures Linked(t, fail, output, s) {
      assert Bare(t, fail, output, s);
      assert Matches("", t.terms) == {};
      if t.word[s] != "" {
        assert t.word[s][1..] == "";
        MatchesSplit(t.word[s], t.terms, t.index.Keys);
      }
    }
  }

  // ------------------------------------------------------------ the matcher

  class AhoCorasickMatcher {
    const fold: string -> string
    var edges: seq<map<char, nat>>
    var fail: seq<nat>
    var output: seq<set<string>>
    ghost var trie: Trie

    /** The trie holds exactly the prefixes of the terms; every state is linked. */
    ghost predicate Valid()
      reads this
    {
      && IsTrie(edges, trie) && Covered(trie, trie.terms)
      && |trie.word| == |fail| == |output|
      && forall s {:trigger Linked(trie, fail, output, s)} | 0 <= s < |trie.word| :: Linked(trie, fail, output, s)
    }

    constructor (raw: seq<string>, fold: string -> string)
      ensures Valid() && this.fold == fold && trie.terms == Dictionary(raw, fold)
    {
      this.fold := fold;
      edges, fail, output := [map[]], [0], [{}];
      trie := Trie([""], map["" := 0], {});
      new;
      for i := 0 to |raw|
        invariant IsTrie(edges, trie) && Covered(trie, trie.terms) && AllBare(trie, fail, output)
        invariant trie.terms == Dictionary(raw[..i], fold)
      {
        var term := fold(Strip(raw[i]));
        assert raw[..i + 1][..i] == raw[..i];
        if term == "" { continue; }
        AddTerm(term);
      }
      assert raw[..|raw|] == raw;
      LinkFailures();
    }

    method AddTerm(term: string)
      requires IsTrie(edges, trie) && Covered(trie, trie.terms) && AllBare(trie, fail, output)
      requires term != ""
      modifies this
      ensures IsTrie(edges, trie) && Covered(trie, trie.terms) && AllBare(trie, fail, output)
      ensures trie.terms == old(trie.terms) + {term}
    {
      var state: nat := 0;
      ghost var cover := trie.terms + {term};
      forall w | w in trie.index && w != "" ensures IsPrefixOfTerm(w, cover) {
        assert IsPrefixOfTerm(w, trie.terms);
      }
      for i := 0 to |term|
        invariant IsTrie(edges, trie) && Covered(trie, cover) && AllBare(trie, fail, output)
        invariant trie.terms == old(trie.terms)
        invariant 0 <= state < |edges| && trie.word[state] == term[..i]
      {
        assert term[..i + 1] == Extend(term[..i], term[i]);
        assert IsPrefixOfTerm(term[..i + 1], cover);
        if term[i] in edges[state] {
          state := edges[state][term[i]];
        } else {
          state := AddState(state, term[i], cover);
        }
      }
      assert term[..|term|] == term;
      ghost var before := output;
      output := output[state := output[state] + {term}];
      MarkTerm(edges, trie, fail, before, output, state);
      trie := trie.(terms := cover);
    }

    method AddState(state: nat, c: char, ghost cover: set<string>) returns (next: nat)
      requires IsTrie(edges, trie) && Covered(trie, cover) && AllBare(trie, fail, output)
      requires state < |edges| && c !in edges[state] && IsPrefixOfTerm(Extend(trie.word[state], c), cover)
      modifies this
      ensures IsTrie(edges, trie) && Covered(trie, cover) && AllBare(trie, fail, output)
      ensures trie.terms == old(trie.terms)
      ensures next < |edges| && trie.word[next] == Extend(old(trie.word)[state], c)
    {
      GrowTrie(edges, trie, state, c);
      next := |edges|;
      ghost var t' := AddWord(trie, Extend(trie.word[state], c));
      forall s | 0 <= s < |t'.word| ensures Bare(t', fail + [0], output + [{}], s) {
        assert s < |trie.word| ==> Bare(trie, fail, output, s);
      }
      edges := AddEdge(edges, state, c);
      fail, output := fail + [0], output + [{}];
      trie := t';
    }

    /** The breadth-first phase: failure links and merged outputs. */
    method LinkFailures()
      requires IsTrie(edges, trie) && Covered(trie, trie.terms) && AllBare(trie, fail, output)
      modifies `fail, `output
      ensures Valid()
    {
      ghost var popped: set<nat>, depth: nat := {0}, 1;
      ghost var found: set<nat>;
      var queue;
      queue, found := RootChildren();
      while queue != []
        invariant IsFrontier(edges, trie, queue, popped, found, depth)
        invariant ChildrenFound(edges, popped, found)
        invariant Progress(trie, fail, output, found)
        decreases trie.index.Values - popped
      {
        var state := queue[0];
        ghost var popped' := popped + {state};
        queue, found := LinkChildren(queue, popped, found, depth);
        popped, depth := popped', |trie.word[state]|;
      }
      forall s | 0 <= s < |edges| ensures Linked(trie, fail, output, s) {
        ShallowFound(edges, trie, queue, popped, found, depth, s);
      }
    }

    method RootChildren() returns (queue: seq<nat>, ghost found: set<nat>)
      requires IsTrie(edges, trie) && AllBare(trie, fail, output)
      ensures IsFrontier(edges, trie, queue, {0}, found, 1) && ChildrenFound(edges, {0}, found)
      ensures Progress(trie, fail, output, found)
    {
      queue, found := [], {0};
      EmptyFrontier(edges, trie);
      var rest := edges[0].Keys;
      while rest != {}
        invariant rest <= edges[0].Keys
        invariant IsFrontier(edges, trie, queue, {0}, found, 0)
        invariant FoundButRest(edges, found, 0, rest)
        decreases rest
      {
        var c :| c in rest;
        PushFrontier(edges, trie, queue, {0}, found, 0, c);
        queue := queue + [edges[0][c]];
        NextChild(edges, trie, found, 0, rest, c);
        found := found + {edges[0][c]};
        rest := rest - {c};
      }
      RootFrontier(edges, trie, queue, found);
      ShortStatesLinked(trie, fail, output, found);
    }

    /** Pop one state, link each of its children and append it to the queue. */
    method LinkChildren(queue: seq<nat>, ghost popped: set<nat>, ghost found: set<nat>, ghost depth: nat)
      returns (queue': seq<nat>, ghost found': set<nat>)
      requires IsTrie(edges, trie) && queue != []
      requires IsFrontier(edges, trie, queue, popped, found, depth) && ChildrenFound(edges, popped, found)
      requires Progress(trie, fail, output, found)
      modifies `fail, `output
      ensures IsFrontier(edges, trie, queue', popped + {queue[0]}, found', |trie.word[queue[0]]|)
      ensures ChildrenFound(edges, popped + {queue[0]}, found')
      ensures Progress(trie, fail, output, found')
    {
      var state := queue[0];
      ghost var level := |trie.word[state]|;
      PopFrontier(edges, trie, queue, popped, found, depth);
      queue', found' := queue[1..], found;
      FirstOfQueue(edges, trie, queue, popped, found, depth);
      var rest := edges[state].Keys;
      while rest != {}
        invariant rest <= edges[state].Keys && found <= found'
        invariant IsFrontier(edges, trie, queue', popped + {state}, found', level)
        invariant FoundButRest(edges, found', state, rest)
        invariant Progress(trie, fail, output, found')
        decreases rest
      {
        var c :| c in rest;
        PushFrontier(edges, trie, queue', popped + {state}, found', state, c);
        queue' := queue' + [edges[state][c]];
        LinkTarget(state, c, found');
        NextChild(edges, trie, found', state, rest, c);
        found' := found' + {edges[state][c]};
        rest := rest - {c};
      }
    }

    /** Failure link and output of the child of `state` on c. */
    method LinkTarget(state: nat, c: char, ghost found: set<nat>)
      requires IsTrie(edges, trie) && state < |edges| && trie.word[state] != "" && c in edges[state]
      requires Progress(trie, fail, output, found) && edges[state][c] !in found
      requires forall s | 0 <= s < |edges| && |trie.word[s]| <= |trie.word[state]| :: s in found
      modifies `fail, `output
      ensures Progress(trie, fail, output, found + {edges[state][c]})
    {
      ghost var t, nodes := trie, trie.index.Keys;
      var target := edges[state][c];
      ghost var w := t.word[target];
      assert w[1..] == Extend(t.word[state][1..], c);
      LongestSuffixStep(t.word[state][1..], c, nodes);
      assert Linked(t, fail, output, state) && Bare(t, fail, output, target);
      var link, steps := Follow(fail[state], c);
      assert Linked(t, fail, output, link);
      MatchesSplit(w, t.terms, nodes);
      ghost var fail0, output0 := fail, output;
      fail := fail[target := link];
      output := output[target := output[target] + output[link]];
      forall s | 0 <= s < |t.word|
        ensures s in found ==> Linked(t, fail, output, s)
        ensures s !in found && s != target ==> Bare(t, fail, output, s)
      {
        assert s in found ==> Linked(t, fail0, output0, s);
        assert s !in found ==> Bare(t, fail0, output0, s);
      }
    }

    /** Follow failure links from `from` until c can be read, then read it. */
    method Follow(from: nat, c: char) returns (state: nat, ghost steps: nat)
      requires IsTrie(edges, trie) && from < |edges| && LinkedUpTo(trie, fail, output, |trie.word[from]|)
      ensures state < |edges| && trie.word[state] == LongestSuffix(Extend(trie.word[from], c), trie.index.Keys)
      ensures steps + |trie.word[state]| <= |trie.word[from]| + 1
    {
      ghost var t, nodes := trie, trie.index.Keys;
      state, steps := from, 0;
      while state != 0 && c !in edges[state]
        invariant state < |edges| && steps + |t.word[state]| <= |t.word[from]|
        invariant LongestSuffix(Extend(t.word[from], c), nodes) == LongestSuffix(Extend(t.word[state], c), nodes)
        decreases |t.word[state]|
      {
        FollowLink(edges, t, fail, output, state, c, |t.word[from]|);
        state := fail[state];
        steps := steps + 1;
      }
      FollowEnd(edges, t, state, c);
      state := if c in edges[state] then edges[state][c] else 0;
    }

    /** The terms occurring in the folded text, sorted; `steps` counts the failure links followed. */
    method Find(text: string) returns (found: seq<string>, ghost steps: nat)
      requires Valid()
      ensures StrictlySorted(found)
      ensures forall t :: t in found <==> t in trie.terms && OccursIn(t, fold(text))
      ensures steps <= |fold(text)|
    {
      var hits;
      hits, steps := Scan(fold(text));
      found := SortedStrings(hits);
      SeenExactly(fold(text), trie.terms);
    }

    method Scan(text: string) returns (hits: set<string>, ghost steps: nat)
      requires Valid()
      ensures hits == Seen(text, trie.terms) && steps <= |text|
    {
      ghost var t, nodes := trie, trie.index.Keys;
      var state: nat := 0;
      hits, steps := {}, 0;
      for i := 0 to |text|
        invariant state < |edges| && t.word[state] == LongestSuffix(text[..i], nodes)
        invariant hits == Seen(text[..i], t.terms)
        invariant steps + |t.word[state]| <= i
      {
        ScanStep(text, i, t.terms, nodes);
        ghost var followed: nat;
        state, followed := Follow(state, text[i]);
        steps := steps + followed;
        assert Linked(t, fail, output, state);
        hits := hits + output[state];
      }
      assert text[..|text|] == text;
    }
  }

  lemma SeenExactly(text: string, terms: set<string>)
    requires "" !in terms
    ensures forall t :: t in Seen(text, terms) <==> t in terms && OccursIn(t, text)
  {
    forall t ensures t in Seen(text, terms) <==> t in terms && OccursIn(t, text) {
      if t == "" { NoBlankSeen(text, terms); } else { SeenIsOccurring(t, text, terms); }
    }
  }

  lemma {:induction false} NoBlankSeen(text: string, terms: set<string>)
    requires "" !in terms
    ensures "" !in Seen(text, terms)
  {
    if text != "" { NoBlankSeen(Front(text), terms); }
  }

  // ------------------------------------------------------------ what the tables mean

  lemma {:induction false} PrefixIsNode(w: string, k: nat, nodes: set<string>)
    requires PrefixClosed(nodes) && w in nodes && k <= |w|
    ensures w[..k] in nodes
  {
    if k == |w| {
      assert w[..k] == w;
    } else {
      PrefixIsNode(Front(w), k, nodes);
      assert Front(w)[..k] == w[..k];
    }
  }

  /** The trie has a state for exactly the prefixes of the terms. */
  lemma NodesArePrefixes(edges: seq<map<char, nat>>, t: Trie, w: string)
    requires IsTrie(edges, t) && Covered(t, t.terms)
    ensures w in t.index <==> w == "" || IsPrefixOfTerm(w, t.terms)
  {
    if IsPrefixOfTerm(w, t.terms) {
      var term :| term in t.terms && w <= term;
      PrefixIsNode(term, |w|, t.index.Keys);
      assert term[..|w|] == w;
    }
    if w in t.index && w != "" {
      assert IsPrefixOfTerm(w, t.terms);
    }
  }

  /** A failure link spells the longest proper suffix that is a prefix of some term. */
  lemma FailureIsLongestProperSuffix(edges: seq<map<char, nat>>, t: Trie, fail: seq<nat>, output: seq<set<string>>,
                                     s: nat, v: string)
    requires IsTrie(edges, t) && Covered(t, t.terms) && |t.word| == |fail| == |output|
    requires s < |t.word| && t.word[s] != "" && Linked(t, fail, output, s)
    ensures fail[s] < |t.word| && IsSuffix(t.word[fail[s]], t.word[s]) && t.word[fail[s]] != t.word[s]
    ensures v != t.word[s] && IsSuffix(v, t.word[s]) && IsPrefixOfTerm(v, t.terms) ==> IsSuffix(v, t.word[fail[s]])
  {
    NodesArePrefixes(edges, t, v);
    if v != t.word[s] && IsSuffix(v, t.word[s]) && v in t.index {
      LongestSuffixIsLongest(t.word[s][1..], t.index.Keys, v);
    }
  }

  /** LocalKeywordModeration.review: build a matcher for the policy's keywords and scan the text. */
  method Review(keywords: seq<string>, text: string, fold: string -> string) returns (matches: seq<string>)
    ensures StrictlySorted(matches)
    ensures forall t :: t in matches <==>
              && t != "" && OccursIn(t, fold(text))
              && exists i | 0 <= i < |keywords| :: t == fold(Strip(keywords[i]))
  {
    var matcher := new AhoCorasickMatcher(keywords, fold);
    ghost var steps;
    matches, steps := matcher.Find(text);
    forall t
      ensures t in matcher.trie.terms <==> t != "" && exists i | 0 <= i < |keywords| :: t == fold(Strip(keywords[i]))
    {
      DictionaryMembers(keywords, fold, t);
    }
  }
}
