/**
  Task identity: the string key `${phase}-${index}` under which a task's
  checked flag is stored, and the keys of a whole phase list.
 */
module TaskKeys {
  import opened Catalog
  import opened Stores

  predicate IsDigit(c: char)
  {
    '0' <= c <= '9'
  }

  predicate AllDigits(s: string)
  {
    forall i :: 0 <= i < |s| ==> IsDigit(s[i])
  }

  function DigitChar(d: nat): (c: char)
    requires d < 10
    ensures IsDigit(c)
  {
    (48 + d) as char
  }

  /** The value of a string of decimal digits, most significant first. */
  function DecimalValue(s: string): nat
    requires AllDigits(s)
    decreases |s|
  {
    if s == [] then 0 else 10 * DecimalValue(s[..|s| - 1]) + (s[|s| - 1] as int - 48)
  }

  /**
    JavaScript's decimal rendering of an array index: digits only, no leading zeros,
    and reading it back gives the number, so different numbers render differently.
   */
  function NatToString(n: nat): (s: string)
    ensures |s| >= 1 && AllDigits(s)
    ensures |s| == 1 || s[0] != '0'
    ensures DecimalValue(s) == n
    decreases n
  {
    if n < 10 then [DigitChar(n)]
    else
      var prefix := NatToString(n / 10);
      var s := prefix + [DigitChar(n % 10)];
      assert s[..|s| - 1] == prefix;
      s
  }

  /**
    The key of the task at `index` in the phase named `phase`: `${phase}-${index}`.
    The name and the index can be read back from the key: the index is the value of the
    trailing digits, and the name is what precedes them and the dash.
   */
  function Key(phase: string, index: nat): (k: string)
    ensures |k| > |phase| + 1
    ensures k[..|phase|] == phase && k[|phase|] == '-'
    ensures TrailingDigits(k) == |k| - |phase| - 1
    ensures k[|phase| + 1..] == NatToString(index)
    ensures AllDigits(k[|phase| + 1..]) && DecimalValue(k[|phase| + 1..]) == index
  {
    var digits := NatToString(index);
    var k := phase + "-" + digits;
    TrailingDigitsOfKey(phase, digits);
    assert k[|phase| + 1..] == digits;
    k
  }

  /** The number of decimal digits at the end of a string. */
  function TrailingDigits(s: string): (n: nat)
    ensures n <= |s|
    decreases |s|
  {
    if s == [] || !IsDigit(s[|s| - 1]) then 0 else 1 + TrailingDigits(s[..|s| - 1])
  }

  /** The digits after the dash of `name-digits` are exactly the trailing digits, whatever the name holds. */
  lemma {:induction false} TrailingDigitsOfKey(name: string, digits: string)
    requires AllDigits(digits)
    ensures TrailingDigits(name + "-" + digits) == |digits|
    decreases |digits|
  {
    var s := name + "-" + digits;
    if digits != [] {
      var shorter := digits[..|digits| - 1];
      assert s[..|s| - 1] == name + "-" + shorter;
      TrailingDigitsOfKey(name, shorter);
    } else {
      assert s[|s| - 1] == '-';
    }
  }

  /** Different (phase name, index) pairs never share a key, even when phase names contain '-'. */
  lemma KeyInjective(p1: string, i1: nat, p2: string, i2: nat)
    requires Key(p1, i1) == Key(p2, i2)
    ensures p1 == p2 && i1 == i2
  {
    var k := Key(p1, i1);
    assert |p1| == |p2|;
    assert p1 == k[..|p1|] == p2;
  }

  /** The keys of the first `n` tasks of the phase named `name`, in task order. */
  function PhaseKeys(name: string, n: nat): (ks: seq<string>)
    ensures |ks| == n
    decreases n
  {
    if n == 0 then [] else PhaseKeys(name, n - 1) + [Key(name, n - 1)]
  }

  /** The keys of every task of a phase list, phase by phase, formed as the render loop forms each one. */
  function CatalogKeys(phases: seq<Phase>): (ks: seq<string>)
    ensures |ks| == TaskCount(phases)
    decreases |phases|
  {
    if phases == [] then [] else PhaseKeys(phases[0].name, |phases[0].tasks|) + CatalogKeys(phases[1..])
  }

  /** Position `i` of a phase's key list holds the key of task `i`. */
  lemma {:induction false} PhaseKeysAt(name: string, n: nat, i: nat)
    requires i < n
    ensures PhaseKeys(name, n)[i] == Key(name, i)
    decreases n
  {
    if i < n - 1 {
      PhaseKeysAt(name, n - 1, i);
    }
  }

  /** Every key of a phase's list is `Key(name, i)` for one of its task indices, and vice versa. */
  lemma PhaseKeysMembers(name: string, n: nat)
    ensures forall i :: 0 <= i < n ==> Key(name, i) in PhaseKeys(name, n)
    ensures forall k :: k in PhaseKeys(name, n) ==> exists i :: 0 <= i < n && k == Key(name, i)
  {
  }

  /** Membership in the key list of a phase list: exactly the keys of a phase and one of its task indices. */
  lemma {:induction false} CatalogKeysMembers(phases: seq<Phase>, k: string)
    ensures k in CatalogKeys(phases) <==>
              exists j, i :: 0 <= j < |phases| && 0 <= i < |phases[j].tasks| && k == Key(phases[j].name, i)
    decreases |phases|
  {
    if phases != [] {
      var p := phases[0];
      PhaseKeysMembers(p.name, |p.tasks|);
      CatalogKeysMembers(phases[1..], k);
      if k in CatalogKeys(phases) {
        if k in PhaseKeys(p.name, |p.tasks|) {
          var i :| 0 <= i < |p.tasks| && k == Key(p.name, i);
          assert 0 <= 0 < |phases| && 0 <= i < |phases[0].tasks| && k == Key(phases[0].name, i);
        } else {
          var j, i :| 0 <= j < |phases[1..]| && 0 <= i < |phases[1..][j].tasks| && k == Key(phases[1..][j].name, i);
          assert 0 <= j + 1 < |phases| && 0 <= i < |phases[j + 1].tasks| && k == Key(phases[j + 1].name, i);
        }
      }
      if exists j, i :: 0 <= j < |phases| && 0 <= i < |phases[j].tasks| && k == Key(phases[j].name, i) {
        var j, i :| 0 <= j < |phases| && 0 <= i < |phases[j].tasks| && k == Key(phases[j].name, i);
        if j > 0 {
          assert 0 <= j - 1 < |phases[1..]| && 0 <= i < |phases[1..][j - 1].tasks| && k == Key(phases[1..][j - 1].name, i);
        }
      }
    }
  }

  /** Within one phase, different task indices give different keys. */
  lemma {:induction false} PhaseKeysDistinct(name: string, n: nat)
    ensures NoDuplicates(PhaseKeys(name, n))
  {
    forall i, j | 0 <= i < j < n ensures PhaseKeys(name, n)[i] != PhaseKeys(name, n)[j] {
      PhaseKeysAt(name, n, i);
      PhaseKeysAt(name, n, j);
      if Key(name, i) == Key(name, j) {
        KeyInjective(name, i, name, j);
      }
    }
  }

  /** Distinct phase names make every task key of the phase list distinct. */
  lemma {:induction false} CatalogKeysDistinct(phases: seq<Phase>)
    requires DistinctNames(phases)
    ensures NoDuplicates(CatalogKeys(phases))
    ensures |CatalogKeys(phases)| == TotalTasks(phases)
    decreases |phases|
  {
    if phases != [] {
      var p := phases[0];
      var head, tail := PhaseKeys(p.name, |p.tasks|), CatalogKeys(phases[1..]);
      PhaseKeysDistinct(p.name, |p.tasks|);
      CatalogKeysDistinct(phases[1..]);
      forall k | k in head ensures k !in tail {
        PhaseKeysMembers(p.name, |p.tasks|);
        var i :| 0 <= i < |p.tasks| && k == Key(p.name, i);
        if k in tail {
          CatalogKeysMembers(phases[1..], k);
          var j, i' :| 0 <= j < |phases[1..]| && 0 <= i' < |phases[1..][j].tasks| && k == Key(phases[1..][j].name, i');
          KeyInjective(p.name, i, phases[j + 1].name, i');
          assert false;
        }
      }
      forall a, b | 0 <= a < b < |head + tail| ensures (head + tail)[a] != (head + tail)[b] {
        if b < |head| {
        } else if a >= |head| {
          assert (head + tail)[a] == tail[a - |head|];
          assert (head + tail)[b] == tail[b - |head|];
        } else {
          assert (head + tail)[a] in head;
          assert (head + tail)[b] == tail[b - |head|];
        }
      }
    }
  }

  /** Within one transaction type every task has its own key: there are `totalTasks` different keys. */
  lemma CatalogKeysUnique(t: TransactionType)
    ensures NoDuplicates(CatalogKeys(PhasesFor(t)))
    ensures |CatalogKeys(PhasesFor(t))| == TotalTasks(PhasesFor(t))
    ensures |set k | k in CatalogKeys(PhasesFor(t))| == TotalTasks(PhasesFor(t))
  {
    CatalogKeysDistinct(PhasesFor(t));
    DistinctElements(CatalogKeys(PhasesFor(t)));
  }

  /** A list without duplicates has as many distinct elements as entries. */
  lemma {:induction false} DistinctElements(s: seq<string>)
    requires NoDuplicates(s)
    ensures |set k | k in s| == |s|
    decreases |s|
  {
    if s != [] {
      var prefix, last := s[..|s| - 1], s[|s| - 1];
      assert s == prefix + [last];
      assert (set k | k in s) == (set k | k in prefix) + {last};
      DistinctElements(prefix);
    }
  }


  /** The key of task `i` of phase `j` is among the keys of the phase list. */
  lemma {:induction false} CatalogKeysHas(phases: seq<Phase>, j: nat, i: nat)
    requires j < |phases| && i < |phases[j].tasks|
    ensures Key(phases[j].name, i) in CatalogKeys(phases)
    decreases j
  {
    if j == 0 {
      PhaseKeysAt(phases[0].name, |phases[0].tasks|, i);
    } else {
      CatalogKeysHas(phases[1..], j - 1, i);
    }
  }

  /** The keys of the first four tasks of "Under Contract" and of "Closing" are keys of both catalogs. */
  lemma KeysCollideAcrossTypes(i: nat)
    requires i < 4
    ensures Key("Under Contract", i) in CatalogKeys(PhasesFor(Buyer))
    ensures Key("Under Contract", i) in CatalogKeys(PhasesFor(Seller))
    ensures Key("Closing", i) in CatalogKeys(PhasesFor(Buyer))
    ensures Key("Closing", i) in CatalogKeys(PhasesFor(Seller))
  {
    SharedPhaseNames();
    CatalogShape();
    CatalogKeysHas(BuyerPhases, 1, i);
    CatalogKeysHas(SellerPhases, 2, i);
    CatalogKeysHas(BuyerPhases, 2, i);
    CatalogKeysHas(SellerPhases, 3, i);
  }
}
