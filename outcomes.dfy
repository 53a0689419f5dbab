/** Option, the Python exceptions the card commands can raise, and a Result type
    usable with `:-`, so that a raised exception is an explicit value. */
module Outcomes {

  datatype Option<+T> = None | Some(value: T)

  /** The exceptions the modelled Python code can raise. */
  datatype Fault =
    | KeyError(key: string)  // a table lookup with a key the table lacks
    | IndexError             // `xs[0]` on an empty list, `parts[2]` on a short split
    | TypeError              // iterating over None, a method called with too few arguments
    | AttributeError         // reading a field of a str or of None
    | ValueError             // unpacking a str as a (message, count) pair

  datatype Result<+T> = Success(value: T) | Failure(fault: Fault) {
    predicate IsFailure() { Failure? }
    function PropagateFailure<U>(): Result<U> requires Failure? { Failure(fault) }
    function Extract(): T requires Success? { value }
  }
}

/** Walking a list and accumulating one piece per element, as the Python loops do with
    `s += ...`, `fields.append(...)` and `list.extend(...)`; the first element whose piece
    raises ends the walk with that exception. */
module Collect {
  import opened Outcomes

  /** `xs[0]`, which raises IndexError on an empty list. */
  function Head<T>(xs: seq<T>): (r: Result<T>)
    ensures r.Success? <==> |xs| > 0
    ensures r.Success? ==> r.value == xs[0]
    ensures r.Failure? ==> r.fault == IndexError
  {
    if |xs| == 0 then Failure(IndexError) else Success(xs[0])
  }

  /** The list an optional field holds; a loop guarded by `is not None` runs over nothing
      when the field is None. */
  function OrEmpty<T>(xs: Option<seq<T>>): (r: seq<T>)
    ensures xs.Some? ==> r == xs.value
    ensures xs.None? ==> r == []
  {
    if xs.Some? then xs.value else []
  }

  /** The pieces `f` gives for each element of `xs`, concatenated in order. */
  function FlatMap<T, U>(f: T -> Result<seq<U>>, xs: seq<T>): Result<seq<U>>
    decreases |xs|
  {
    if xs == [] then Success([])
    else
      var init :- FlatMap(f, xs[..|xs| - 1]);
      var last :- f(xs[|xs| - 1]);
      Success(init + last)
  }

  /** `f` applied to each element, as `list(map(f, xs))`. */
  function MapAll<T, U>(f: T -> Result<U>, xs: seq<T>): Result<seq<U>>
    decreases |xs|
  {
    if xs == [] then Success([])
    else
      var init :- MapAll(f, xs[..|xs| - 1]);
      var last :- f(xs[|xs| - 1]);
      Success(init + [last])
  }

  /** Once a prefix has raised, the whole walk raises the same exception. */
  lemma {:induction false} FlatMapFailureSticks<T, U>(f: T -> Result<seq<U>>, xs: seq<T>, n: nat)
    requires n <= |xs|
    requires FlatMap(f, xs[..n]).Failure?
    ensures FlatMap(f, xs) == FlatMap(f, xs[..n])
    decreases |xs|
  {
    if n < |xs| {
      var init := xs[..|xs| - 1];
      assert init[..n] == xs[..n];
      FlatMapFailureSticks(f, init, n);
    } else {
      assert xs[..n] == xs;
    }
  }

  /** The walk over `a + b` is the walk over `a` followed by the walk over `b`:
      every element contributes its own piece, in list order. */
  lemma {:induction false} FlatMapAppend<T, U>(f: T -> Result<seq<U>>, a: seq<T>, b: seq<T>)
    ensures FlatMap(f, a + b) ==
      (var x :- FlatMap(f, a); var y :- FlatMap(f, b); Success(x + y))
    decreases |b|
  {
    if b == [] {
      assert a + b == a;
      if FlatMap(f, a).Success? {
        assert FlatMap(f, a).value + [] == FlatMap(f, a).value;
      }
    } else {
      var b' := b[..|b| - 1];
      assert (a + b)[..|a + b| - 1] == a + b';
      assert (a + b)[|a + b| - 1] == b[|b| - 1];
      FlatMapAppend(f, a, b');
      var last := f(b[|b| - 1]);
      if FlatMap(f, a).Success? && FlatMap(f, b').Success? && last.Success? {
        var x, y := FlatMap(f, a).value, FlatMap(f, b').value;
        assert x + (y + last.value) == (x + y) + last.value;
      }
    }
  }

  /** A one-element walk gives exactly that element's piece. */
  lemma FlatMapSingle<T, U>(f: T -> Result<seq<U>>, x: T)
    ensures FlatMap(f, [x]) == f(x)
  {
    assert [x][..0] == [];
    if f(x).Success? {
      assert [] + f(x).value == f(x).value;
    }
  }

  /** The walk succeeds exactly when no element raises. */
  lemma {:induction false} FlatMapSucceeds<T, U>(f: T -> Result<seq<U>>, xs: seq<T>)
    ensures FlatMap(f, xs).Success? <==> forall i :: 0 <= i < |xs| ==> f(xs[i]).Success?
    decreases |xs|
  {
    if xs != [] {
      var init := xs[..|xs| - 1];
      FlatMapSucceeds(f, init);
      assert forall i :: 0 <= i < |init| ==> init[i] == xs[i];
    }
  }

  /** The pieces of a list concatenated in order. */
  function Flatten<U>(pieces: seq<seq<U>>): seq<U>
    decreases |pieces|
  {
    if pieces == [] then [] else Flatten(pieces[..|pieces| - 1]) + pieces[|pieces| - 1]
  }

  /** The walk is the pieces of `map` concatenated: it succeeds exactly when the map does,
      and then each element contributes its own piece, in order. */
  lemma {:induction false} FlatMapIsFlatten<T, U>(f: T -> Result<seq<U>>, xs: seq<T>)
    ensures FlatMap(f, xs).Success? <==> MapAll(f, xs).Success?
    ensures FlatMap(f, xs).Success? ==> FlatMap(f, xs).value == Flatten(MapAll(f, xs).value)
    decreases |xs|
  {
    if xs != [] {
      var init := xs[..|xs| - 1];
      FlatMapIsFlatten(f, init);
      if MapAll(f, xs).Success? {
        var m := MapAll(f, xs).value;
        assert m[..|m| - 1] == MapAll(f, init).value;
      }
    }
  }

  /** A walk that raises raises the exception of its first failing element. */
  lemma {:induction false} FlatMapFirstFailure<T, U>(f: T -> Result<seq<U>>, xs: seq<T>)
    requires FlatMap(f, xs).Failure?
    ensures exists i ::
      && 0 <= i < |xs|
      && (forall j :: 0 <= j < i ==> f(xs[j]).Success?)
      && f(xs[i]) == Failure(FlatMap(f, xs).fault)
    decreases |xs|
  {
    var init := xs[..|xs| - 1];
    assert forall j :: 0 <= j < |init| ==> init[j] == xs[j];
    if FlatMap(f, init).Failure? {
      FlatMapFirstFailure(f, init);
      var i :|
        && 0 <= i < |init|
        && (forall j :: 0 <= j < i ==> f(init[j]).Success?)
        && f(init[i]) == Failure(FlatMap(f, init).fault);
      assert f(xs[i]) == Failure(FlatMap(f, xs).fault);
    } else {
      FlatMapSucceeds(f, init);
      assert f(xs[|xs| - 1]) == Failure(FlatMap(f, xs).fault);
    }
  }

  /** Once a prefix has raised, mapping the whole list raises the same exception. */
  lemma {:induction false} MapAllFailureSticks<T, U>(f: T -> Result<U>, xs: seq<T>, n: nat)
    requires n <= |xs|
    requires MapAll(f, xs[..n]).Failure?
    ensures MapAll(f, xs) == MapAll(f, xs[..n])
    decreases |xs|
  {
    if n < |xs| {
      var init := xs[..|xs| - 1];
      assert init[..n] == xs[..n];
      MapAllFailureSticks(f, init, n);
    } else {
      assert xs[..n] == xs;
    }
  }

  /** On success, `MapAll` keeps one result per element, each the element's image. */
  lemma {:induction false} MapAllPointwise<T, U>(f: T -> Result<U>, xs: seq<T>)
    requires MapAll(f, xs).Success?
    ensures |MapAll(f, xs).value| == |xs|
    ensures forall i :: 0 <= i < |xs| ==> f(xs[i]) == Success(MapAll(f, xs).value[i])
    decreases |xs|
  {
    if xs != [] {
      var init := xs[..|xs| - 1];
      MapAllPointwise(f, init);
      assert forall i :: 0 <= i < |init| ==> init[i] == xs[i];
    }
  }

  /** The loop `for x in xs: acc += f(x)`, raising as soon as one `f(x)` raises. */
  method RenderEach<T, U>(f: T -> Result<seq<U>>, xs: seq<T>) returns (r: Result<seq<U>>)
    ensures r == FlatMap(f, xs)
  {
    var acc: seq<U> := [];
    for i := 0 to |xs|
      invariant FlatMap(f, xs[..i]) == Success(acc)
    {
      assert xs[..i + 1][..i] == xs[..i];
      var piece := f(xs[i]);
      if piece.Failure? {
        FlatMapFailureSticks(f, xs, i + 1);
        return Failure(piece.fault);
      }
      acc := acc + piece.value;
    }
    assert xs[..|xs|] == xs;
    return Success(acc);
  }
}
