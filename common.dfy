/** Shared vocabulary of the Breathe London scripts: Python's `None`, Python
    truthiness of optional strings, and the concatenation of a list of lists
    (the list comprehension of process_sensor_data and pandas' `pd.concat`). */
module Common {

  /** A Python value that may be `None`. */
  datatype Option<+T> = None | Some(value: T)

  /** Python truthiness of a string argument that may be `None`:
      `None` and the empty string are false, every other string is true. */
  predicate Truthy(s: Option<string>) {
    s.Some? && s.value != ""
  }

  /** A CSV file as written by `to_csv`: its name and its rows. */
  datatype Csv<R> = Csv(file: string, rows: seq<R>)

  function Min(a: int, b: int): int { if a <= b then a else b }

  function Max(a: int, b: int): int { if a >= b then a else b }

  /** Sum of the lengths of the inner lists. */
  function TotalLength<T>(groups: seq<seq<T>>): nat
  {
    if |groups| == 0 then 0 else |groups[0]| + TotalLength(groups[1..])
  }

  /** `[item for sublist in groups for item in sublist]`: the inner lists
      one after another, in the order they are given. */
  function Flatten<T>(groups: seq<seq<T>>): (r: seq<T>)
    ensures |r| == TotalLength(groups)
  {
    if |groups| == 0 then [] else groups[0] + Flatten(groups[1..])
  }

  /** Flattening distributes over concatenation of the outer list. */
  lemma {:induction false} FlattenAppend<T>(a: seq<seq<T>>, b: seq<seq<T>>)
    ensures Flatten(a + b) == Flatten(a) + Flatten(b)
  {
    if |a| > 0 {
      assert (a + b)[1..] == a[1..] + b;
      FlattenAppend(a[1..], b);
    } else {
      assert a + b == b;
    }
  }

  /** Where inner list `k` starts in the flat list: after the items of the
      `k` lists before it. */
  function Offset<T>(groups: seq<seq<T>>, k: nat): nat
    requires k <= |groups|
  {
    TotalLength(groups[..k])
  }

  /** The flat list holds every inner list whole, each at its offset. */
  lemma FlattenAtAll<T>(groups: seq<seq<T>>)
    ensures forall k :: 0 <= k < |groups| ==>
              Offset(groups, k) + |groups[k]| <= |Flatten(groups)| &&
              Flatten(groups)[Offset(groups, k)..Offset(groups, k) + |groups[k]|] == groups[k]
  {
    forall k | 0 <= k < |groups|
      ensures Offset(groups, k) + |groups[k]| <= |Flatten(groups)|
      ensures Flatten(groups)[Offset(groups, k)..Offset(groups, k) + |groups[k]|] == groups[k]
    {
      assert groups == groups[..k] + [groups[k]] + groups[k + 1..];
      FlattenAppend(groups[..k] + [groups[k]], groups[k + 1..]);
      FlattenAppend(groups[..k], [groups[k]]);
      assert Flatten([groups[k]]) == groups[k] + Flatten([groups[k]][1..]);
    }
  }

  /** An item is in the flat list exactly when it is in one of the inner lists. */
  lemma {:induction false} FlattenMember<T>(groups: seq<seq<T>>, x: T)
    ensures x in Flatten(groups) <==> exists k :: 0 <= k < |groups| && x in groups[k]
  {
    if |groups| > 0 {
      FlattenMember(groups[1..], x);
      if x in Flatten(groups[1..]) {
        var k :| 0 <= k < |groups[1..]| && x in groups[1..][k];
        assert x in groups[k + 1];
      }
      if exists k :: 0 <= k < |groups| && x in groups[k] {
        var k :| 0 <= k < |groups| && x in groups[k];
        if k > 0 {
          assert x in groups[1..][k - 1];
        }
      }
    }
  }
}
