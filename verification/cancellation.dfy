/** Cancellation tokens: a tree in which cancelling a token cancels everything below it, now and later. */
module Cancellation {
  import opened Prelude

  type Token = nat

  /** Token `t` was made as a child of `parents[t]`; `requested` holds the tokens that were cancelled themselves. */
  datatype Tree = Tree(parents: seq<Option<Token>>, requested: set<Token>)

  ghost predicate Valid(tree: Tree) {
    && (forall t :: 0 <= t < |tree.parents| && tree.parents[t].Some? ==> tree.parents[t].value < t)
    && (forall t :: t in tree.requested ==> t < |tree.parents|)
  }

  predicate IsCancelled(tree: Tree, t: Token)
    requires Valid(tree) && t < |tree.parents|
  {
    t in tree.requested || (tree.parents[t].Some? && IsCancelled(tree, tree.parents[t].value))
  }

  function Child(tree: Tree, parent: Token): Tree {
    tree.(parents := tree.parents + [Some(parent)])
  }

  function Cancel(tree: Tree, t: Token): Tree {
    tree.(requested := tree.requested + {t})
  }

  /** Tokens made earlier do not notice a new one. */
  lemma {:induction false} OlderTokensStay(tree: Tree, parent: Token, t: Token)
    requires Valid(tree) && parent < |tree.parents| && t < |tree.parents|
    ensures Valid(Child(tree, parent))
    ensures IsCancelled(Child(tree, parent), t) == IsCancelled(tree, t)
    decreases t
  {
    if tree.parents[t].Some? {
      OlderTokensStay(tree, parent, tree.parents[t].value);
    }
  }

  /** A new token is cancelled exactly when its parent is. */
  lemma ChildInherits(tree: Tree, parent: Token)
    requires Valid(tree) && parent < |tree.parents|
    ensures Valid(Child(tree, parent))
    ensures IsCancelled(Child(tree, parent), |tree.parents|) == IsCancelled(tree, parent)
  {
    OlderTokensStay(tree, parent, parent);
  }

  /** Whether `t` is `ancestor` or below it. */
  predicate Below(tree: Tree, t: Token, ancestor: Token)
    requires Valid(tree) && t < |tree.parents|
  {
    t == ancestor || (tree.parents[t].Some? && Below(tree, tree.parents[t].value, ancestor))
  }

  /** A cancel reaches exactly the tokens below it. */
  lemma {:induction false} CancelReachesBelow(tree: Tree, c: Token, t: Token)
    requires Valid(tree) && t < |tree.parents| && c < |tree.parents|
    ensures Valid(Cancel(tree, c))
    ensures IsCancelled(Cancel(tree, c), t) <==> IsCancelled(tree, t) || Below(tree, t, c)
  {
    if tree.parents[t].Some? {
      CancelReachesBelow(tree, c, tree.parents[t].value);
    }
  }
}
