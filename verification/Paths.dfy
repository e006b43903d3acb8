/** Path strings cut at their slashes, and the lexical cleaning that Go's `filepath.Clean` does on them. */
module Paths {

  /** Whether a path string starts with a slash, and what stands between its slashes. */
  datatype PathName = PathName(absolute: bool, parts: seq<string>)

  /** A component that names a directory entry. */
  predicate Ordinary(c: string) {
    c != "" && c != "." && c != ".."
  }

  predicate AllOrdinary(parts: seq<string>) {
    forall i :: 0 <= i < |parts| ==> Ordinary(parts[i])
  }

  /** Every ".." stands before every ordinary component. */
  predicate DotsLead(parts: seq<string>) {
    forall i, j :: 0 <= i < j < |parts| && Ordinary(parts[i]) ==> parts[j] != ".."
  }

  /** One component of the lexical cleaning: `stack` holds what has been cleaned so far. */
  function Push(absolute: bool, stack: seq<string>, c: string): seq<string> {
    if c == "" || c == "." then stack
    else if c != ".." then stack + [c]
    else if |stack| > 0 && stack[|stack| - 1] != ".." then stack[..|stack| - 1]
    else if absolute then stack
    else stack + [c]
  }

  function Clean(absolute: bool, stack: seq<string>, parts: seq<string>): seq<string>
    decreases |parts|
  {
    if parts == [] then stack
    else Clean(absolute, Push(absolute, stack, parts[0]), parts[1..])
  }

  lemma {:induction false} CleanKeepsOrdinary(absolute: bool, stack: seq<string>, parts: seq<string>)
    requires AllOrdinary(parts)
    ensures Clean(absolute, stack, parts) == stack + parts
    decreases |parts|
  {
    if parts == [] {
      assert stack + parts == stack;
    } else {
      CleanKeepsOrdinary(absolute, stack + [parts[0]], parts[1..]);
      assert stack + [parts[0]] + parts[1..] == stack + parts;
    }
  }

  /** Cleaning a rooted path leaves nothing but ordinary components: it cannot climb above the root. */
  lemma {:induction false} CleanRootedIsOrdinary(stack: seq<string>, parts: seq<string>)
    requires AllOrdinary(stack)
    ensures AllOrdinary(Clean(true, stack, parts))
    decreases |parts|
  {
    if parts == [] {
    } else {
      CleanRootedIsOrdinary(Push(true, stack, parts[0]), parts[1..]);
    }
  }

  lemma {:induction false} CleanAppend(absolute: bool, stack: seq<string>, a: seq<string>, b: seq<string>)
    ensures Clean(absolute, stack, a + b) == Clean(absolute, Clean(absolute, stack, a), b)
    decreases |a|
  {
    if a == [] {
      assert a + b == b;
    } else {
      assert (a + b)[0] == a[0] && (a + b)[1..] == a[1..] + b;
      CleanAppend(absolute, Push(absolute, stack, a[0]), a[1..], b);
    }
  }
}
