/** Token usage, and its sum over messages. */
module Usages {

  datatype Usage = Usage(input: int, output: int, cacheRead: int, cacheCreation: int, reasoning: int, reported: bool,
      cacheCreationReported: bool) {
    function Add(u: Usage): Usage {
      Usage(input + u.input, output + u.output, cacheRead + u.cacheRead, cacheCreation + u.cacheCreation,
            reasoning + u.reasoning, reported || u.reported, cacheCreationReported || u.cacheCreationReported)
    }
  }

  const NOTHING := Usage(0, 0, 0, 0, 0, false, false)

  /** The sum of the map's values over these keys. */
  ghost function SumOver(m: map<nat, Usage>, keys: set<nat>): Usage
    requires keys <= m.Keys
  {
    if keys == {} then NOTHING
    else
      var k :| k in keys;
      m[k].Add(SumOver(m, keys - {k}))
  }

  ghost function Sum(m: map<nat, Usage>): Usage {
    SumOver(m, m.Keys)
  }

  /** The sum does not depend on the order of the keys. */
  lemma {:induction false} SumTakesAny(m: map<nat, Usage>, keys: set<nat>, k: nat)
    requires keys <= m.Keys && k in keys
    ensures SumOver(m, keys) == m[k].Add(SumOver(m, keys - {k}))
    decreases |keys|
  {
    var first :| first in keys && SumOver(m, keys) == m[first].Add(SumOver(m, keys - {first}));
    if first != k {
      SumTakesAny(m, keys - {first}, k);
      SumTakesAny(m, keys - {k}, first);
      var rest := keys - {first} - {k};
      assert keys - {k} - {first} == rest;
      assert m[first].Add(m[k].Add(SumOver(m, rest))) == m[k].Add(m[first].Add(SumOver(m, rest)));
    }
  }

  /** One count of the listed messages, added up. */
  function Counts(m: map<nat, Usage>, keys: seq<nat>, count: Usage -> int): int
    requires forall k :: k in keys ==> k in m
  {
    if keys == [] then 0
    else
      assert keys[0] in keys;
      count(m[keys[0]]) + Counts(m, keys[1..], count)
  }

  predicate NoneTwice(keys: seq<nat>) {
    forall i, j :: 0 <= i < j < |keys| ==> keys[i] != keys[j]
  }

  ghost function SetOf(keys: seq<nat>): set<nat> { set k | k in keys }

  lemma {:induction false} SumIsCounted(m: map<nat, Usage>, keys: seq<nat>, count: Usage -> int)
    requires (forall k :: k in keys ==> k in m) && NoneTwice(keys)
    requires count(NOTHING) == 0 && forall a: Usage, b: Usage :: count(a.Add(b)) == count(a) + count(b)
    ensures count(SumOver(m, SetOf(keys))) == Counts(m, keys, count)
    decreases |keys|
  {
    if keys != [] {
      ListedFirst(m, keys);
      SumIsCounted(m, keys[1..], count);
    } else {
      assert SetOf(keys) == {};
    }
  }

  lemma ListedFirst(m: map<nat, Usage>, keys: seq<nat>)
    requires keys != [] && (forall k :: k in keys ==> k in m) && NoneTwice(keys)
    ensures (forall k :: k in keys[1..] ==> k in m) && NoneTwice(keys[1..]) && keys[0] in m
    ensures SumOver(m, SetOf(keys)) == m[keys[0]].Add(SumOver(m, SetOf(keys[1..])))
  {
    hide SumOver;
    assert keys[0] in keys && keys == [keys[0]] + keys[1..];
    SumTakesAny(m, SetOf(keys), keys[0]);
    forall k | k in SetOf(keys) - {keys[0]}
      ensures k in SetOf(keys[1..])
    {
      var i :| 0 <= i < |keys| && keys[i] == k;
      assert keys[1..][i - 1] == k;
    }
    forall k | k in SetOf(keys[1..])
      ensures k in SetOf(keys) - {keys[0]}
    {
      var i :| 0 <= i < |keys[1..]| && keys[1..][i] == k;
      assert keys[i + 1] == k;
    }
    assert SetOf(keys) - {keys[0]} == SetOf(keys[1..]);
  }

  /** Each count of the sum is that count added up over the messages, however they are listed. */
  lemma SumByCount(m: map<nat, Usage>, keys: seq<nat>)
    requires NoneTwice(keys) && forall k :: k in keys <==> k in m
    ensures Sum(m).input == Counts(m, keys, (u: Usage) => u.input)
    ensures Sum(m).output == Counts(m, keys, (u: Usage) => u.output)
    ensures Sum(m).cacheRead == Counts(m, keys, (u: Usage) => u.cacheRead)
    ensures Sum(m).cacheCreation == Counts(m, keys, (u: Usage) => u.cacheCreation)
    ensures Sum(m).reasoning == Counts(m, keys, (u: Usage) => u.reasoning)
  {
    hide SumOver, Counts;
    assert SetOf(keys) == m.Keys;
    SumIsCounted(m, keys, (u: Usage) => u.input);
    SumIsCounted(m, keys, (u: Usage) => u.output);
    SumIsCounted(m, keys, (u: Usage) => u.cacheRead);
    SumIsCounted(m, keys, (u: Usage) => u.cacheCreation);
    SumIsCounted(m, keys, (u: Usage) => u.reasoning);
  }

  /** And it is reported exactly what some message reports. */
  lemma {:induction false} SumReports(m: map<nat, Usage>, keys: set<nat>)
    requires keys <= m.Keys
    ensures SumOver(m, keys).reported <==> exists k :: k in keys && m[k].reported
    ensures SumOver(m, keys).cacheCreationReported <==> exists k :: k in keys && m[k].cacheCreationReported
    decreases |keys|
  {
    if keys != {} {
      var k :| k in keys;
      SumTakesAny(m, keys, k);
      SumReports(m, keys - {k});
    }
  }

  /** `accumulateUsage`: the keys come in any order. */
  method Accumulate(m: map<nat, Usage>) returns (total: Usage)
    ensures total == Sum(m)
  {
    total := NOTHING;
    var todo := m.Keys;
    while todo != {}
      invariant todo <= m.Keys
      invariant Sum(m) == total.Add(SumOver(m, todo))
      decreases |todo|
    {
      var k :| k in todo;
      SumTakesAny(m, todo, k);
      total := total.Add(m[k]);
      todo := todo - {k};
    }
  }
}
