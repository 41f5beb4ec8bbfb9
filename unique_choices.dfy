/**
 * The `UniqueChoices` collector of paq-utils/index.js: a capacity-bounded,
 * duplicate-rejecting list of answer-choice strings kept in insertion order,
 * with a set beside it for membership tests.
 */
module PaqUtils {
  import opened Wrappers
  import opened ChoiceSpec

  /** Message `addAll` throws when its argument is not an array. */
  const AddAllArgumentError: string := "Invalid Parameter for Choices: addAll expects array parameter"

  /** What `addAll` can be passed: an array of choices, or any value that is not an array. */
  datatype ChoicesArg = Array(items: seq<string>) | NotArray

  class UniqueChoices {
    /** `_limit`: the capacity. */
    var limit: int
    /** `_choices`: accepted choices in insertion order. */
    var choices: seq<string>
    /** `_uniqueChoices`: the set of accepted choices. */
    var seen: set<string>

    /** The two fields agree, hold no duplicate and never exceed the capacity. */
    ghost predicate Valid()
      reads this
    {
      seen == Elems(choices) && WellFormed(choices, limit)
    }

    /** A `limit` that is not an integer (`None`) falls back to the default of 4. */
    constructor (limit: Option<int>)
      ensures Valid()
      ensures this.limit == if limit.Some? then limit.value else DefaultLimit
      ensures choices == [] && seen == {}
    {
      this.limit := if limit.Some? then limit.value else DefaultLimit;
      seen := {};
      choices := [];
    }

    method Full() returns (full: bool)
      ensures full <==> IsFull(choices, limit)
    {
      full := |choices| >= limit;
    }

    method GetChoices() returns (r: seq<string>)
      requires Valid()
      ensures r == choices
      ensures NoDuplicates(r) && |r| <= Capacity(limit)
      ensures forall x :: x in r <==> x in seen
      ensures |r| == |seen|
    {
      r := choices;
      DistinctCount(choices);
    }

    /**
     * Accepts `choice` unless the collector is full or already holds it;
     * a rejected call changes nothing.
     */
    method Add(choice: string) returns (added: bool)
      requires Valid()
      modifies this
      ensures Valid()
      ensures added <==> old(|choices|) < old(limit) && choice !in old(seen)
      ensures choices == AddStep(old(choices), old(limit), choice)
      ensures choices == if added then old(choices) + [choice] else old(choices)
      ensures seen == if added then old(seen) + {choice} else old(seen)
      ensures limit == old(limit)
    {
      var full := Full();
      if full {
        return false;
      }
      if choice in seen {
        return false;
      }
      seen := seen + {choice};
      choices := choices + [choice];
      added := true;
      assert Elems(choices) == Elems(old(choices)) + {choice};
    }

    /**
     * Adds the elements of an array one by one, stopping once the collector
     * is full; anything that is not an array is refused before any change.
     */
    method AddAll(arg: ChoicesArg) returns (outcome: Outcome<string>)
      requires Valid()
      modifies this
      ensures Valid()
      ensures limit == old(limit)
      ensures arg.NotArray? ==> outcome == Fail(AddAllArgumentError) && choices == old(choices) && seen == old(seen)
      ensures arg.Array? ==> outcome == Pass && choices == AddAllSpec(old(choices), arg.items, limit)
      ensures arg.Array? ==> choices == old(choices) + Take(Unseen(old(choices), arg.items), Room(|old(choices)|, limit))
    {
      if arg.NotArray? {
        return Fail(AddAllArgumentError);
      }
      var xs := arg.items;
      var i := 0;
      var full := Full();
      while i < |xs| && !full
        invariant 0 <= i <= |xs|
        invariant Valid()
        invariant limit == old(limit)
        invariant full <==> IsFull(choices, limit)
        invariant AddAllSpec(old(choices), xs, limit) == AddAllSpec(choices, xs[i..], limit)
        decreases |xs| - i
      {
        ghost var before := choices;
        var _ := Add(xs[i]);
        assert AddAllSpec(before, xs[i..], limit) == AddAllSpec(choices, xs[i + 1..], limit) by {
          assert xs[i..][0] == xs[i] && xs[i..][1..] == xs[i + 1..];
        }
        i := i + 1;
        full := Full();
      }
      outcome := Pass;
      AddAllAppendsUnseen(old(choices), xs, limit);
    }
  }

  /** A capacity-3 collector given "a", "a", "b", "c", "d" one at a time with `Add`. */
  method CapacityThreeScenario() returns (r: seq<string>)
    ensures r == ["a", "b", "c"]
  {
    var c := new UniqueChoices(Some(3));
    var a1 := c.Add("a");
    assert a1 && c.choices == ["a"];
    var a2 := c.Add("a");
    assert !a2 && c.choices == ["a"];
    var b := c.Add("b");
    assert b && c.choices == ["a", "b"];
    var cc := c.Add("c");
    assert cc && c.choices == ["a", "b", "c"];
    var d := c.Add("d");
    assert !d && c.choices == ["a", "b", "c"];
    var full := c.Full();
    assert full;
    var failed := c.AddAll(NotArray);
    assert failed.Fail?;
    r := c.GetChoices();
  }

  /** The same five choices given at once to `AddAll` on a capacity-3 collector. */
  method CapacityThreeAddAllScenario() returns (r: seq<string>)
    ensures r == ["a", "b", "c"]
  {
    var c := new UniqueChoices(Some(3));
    var xs := ["a", "a", "b", "c", "d"];
    assert AddAllSpec([], xs, 3) == ["a", "b", "c"];
    var passed := c.AddAll(Array(xs));
    assert passed == Pass;
    r := c.GetChoices();
  }
}
