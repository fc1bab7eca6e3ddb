/** `UserItemsFoundInVulkanArray` and `UserItemsMissingInVulkanArray`: the
    items of a user list that do, or do not, match some item of a list Vulkan
    reported. Only their documented contract is modelled (keep the user's items
    in order, filtered by membership); the comparison callbacks the callers pass
    compare names or all fields, which here is equality. */
module VulkanArrays {

  /** The user's items found in the Vulkan list, in the user's order. */
  function FoundIn<T(==,!new)>(user: seq<T>, vulkan: seq<T>): (r: seq<T>)
    ensures |r| <= |user|
    ensures forall x :: x in r <==> x in user && x in vulkan
    decreases |user|
  {
    if |user| == 0 then []
    else (if user[0] in vulkan then [user[0]] else []) + FoundIn(user[1..], vulkan)
  }

  /** The user's items missing from the Vulkan list, in the user's order. */
  function MissingIn<T(==,!new)>(user: seq<T>, vulkan: seq<T>): (r: seq<T>)
    ensures |r| <= |user|
    ensures forall x :: x in r <==> x in user && x !in vulkan
    decreases |user|
  {
    if |user| == 0 then []
    else (if user[0] in vulkan then [] else [user[0]]) + MissingIn(user[1..], vulkan)
  }

  /** Some user item is in the Vulkan list. */
  predicate Offers<T(==)>(user: seq<T>, vulkan: seq<T>) {
    exists x :: x in user && x in vulkan
  }

  /** The found list is empty exactly when no user item is in the Vulkan list. */
  lemma FoundSomethingIffOffered<T(!new)>(user: seq<T>, vulkan: seq<T>)
    ensures |FoundIn(user, vulkan)| > 0 <==> Offers(user, vulkan)
  {
    if |FoundIn(user, vulkan)| > 0 {
      assert FoundIn(user, vulkan)[0] in FoundIn(user, vulkan);
    }
  }

  /** Every user item lands in exactly one of the two lists; nothing is missing
      exactly when every user item is found, in which case the found list is the
      user's list itself. */
  lemma {:induction false} FoundAndMissingPartition<T(!new)>(user: seq<T>, vulkan: seq<T>)
    ensures |FoundIn(user, vulkan)| + |MissingIn(user, vulkan)| == |user|
    ensures MissingIn(user, vulkan) == [] <==> FoundIn(user, vulkan) == user
    decreases |user|
  {
    if |user| > 0 {
      FoundAndMissingPartition(user[1..], vulkan);
      assert user == [user[0]] + user[1..];
    }
  }

  /** Filtering again against the same list changes nothing. */
  lemma {:induction false} FoundInIdempotent<T(!new)>(user: seq<T>, vulkan: seq<T>)
    ensures FoundIn(FoundIn(user, vulkan), vulkan) == FoundIn(user, vulkan)
    decreases |user|
  {
    if |user| > 0 {
      FoundInIdempotent(user[1..], vulkan);
      var rest := FoundIn(user[1..], vulkan);
      if user[0] in vulkan {
        assert FoundIn(user, vulkan) == [user[0]] + rest;
        assert ([user[0]] + rest)[1..] == rest;
      } else {
        assert FoundIn(user, vulkan) == [] + rest == rest;
      }
    }
  }

  /** Filtering a request made of two parts filters each part in turn, so the
      found items keep the order in which the user listed them. */
  lemma {:induction false} FoundInConcat<T(!new)>(a: seq<T>, b: seq<T>, vulkan: seq<T>)
    ensures FoundIn(a + b, vulkan) == FoundIn(a, vulkan) + FoundIn(b, vulkan)
    decreases |a|
  {
    if |a| > 0 {
      assert (a + b)[0] == a[0];
      assert (a + b)[1..] == a[1..] + b;
      FoundInConcat(a[1..], b, vulkan);
      if a[0] in vulkan {
        var rest := FoundIn(a[1..], vulkan) + FoundIn(b, vulkan);
        assert FoundIn(a + b, vulkan) == [a[0]] + rest;
        assert [a[0]] + rest == ([a[0]] + FoundIn(a[1..], vulkan)) + FoundIn(b, vulkan);
      } else {
        assert FoundIn(a + b, vulkan) == FoundIn(a[1..] + b, vulkan);
        assert FoundIn(a, vulkan) == FoundIn(a[1..], vulkan);
      }
    } else {
      assert a + b == b;
    }
  }

  /** The same for the missing items. */
  lemma {:induction false} MissingInConcat<T(!new)>(a: seq<T>, b: seq<T>, vulkan: seq<T>)
    ensures MissingIn(a + b, vulkan) == MissingIn(a, vulkan) + MissingIn(b, vulkan)
    decreases |a|
  {
    if |a| > 0 {
      assert (a + b)[0] == a[0];
      assert (a + b)[1..] == a[1..] + b;
      MissingInConcat(a[1..], b, vulkan);
      if a[0] in vulkan {
        assert MissingIn(a + b, vulkan) == MissingIn(a[1..] + b, vulkan);
        assert MissingIn(a, vulkan) == MissingIn(a[1..], vulkan);
      } else {
        var rest := MissingIn(a[1..], vulkan) + MissingIn(b, vulkan);
        assert MissingIn(a + b, vulkan) == [a[0]] + rest;
        assert [a[0]] + rest == ([a[0]] + MissingIn(a[1..], vulkan)) + MissingIn(b, vulkan);
      }
    } else {
      assert a + b == b;
    }
  }

  /** The first found item is the first user item the Vulkan list has: the one a
      caller that takes element 0 ends up with. */
  lemma {:induction false} FirstFoundIsFirstOffered<T(!new)>(user: seq<T>, vulkan: seq<T>, k: nat)
    requires k < |user| && user[k] in vulkan
    requires forall j :: 0 <= j < k ==> user[j] !in vulkan
    ensures |FoundIn(user, vulkan)| > 0 && FoundIn(user, vulkan)[0] == user[k]
    decreases k
  {
    if k > 0 {
      FirstFoundIsFirstOffered(user[1..], vulkan, k - 1);
    }
  }
}
