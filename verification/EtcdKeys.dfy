/** The families of etcd keys a workflow uses, as text, and the prefix deletes that clear it
    (common/protocol.go, common/model.go, app/schedule.go). */
module EtcdKeys {
  import opened Basics

  const ETCD_PREFIX := "/cron"

  // ----- decimal text -----

  function Digit(d: nat): char
    requires d < 10
  {
    "0123456789"[d]
  }

  function NatText(n: nat): string {
    if n < 10 then [Digit(n)] else NatText(n / 10) + [Digit(n % 10)]
  }

  function Decimal(n: int): string {
    if n < 0 then "-" + NatText(-n) else NatText(n)
  }

  lemma {:induction false} NatTextIsDigits(n: nat)
    ensures NatText(n) != "" && forall c :: c in NatText(n) ==> '0' <= c <= '9'
  {
    if n >= 10 {
      NatTextIsDigits(n / 10);
    }
  }

  lemma DecimalHasNoSeparator(n: int)
    ensures Decimal(n) != "" && '/' !in Decimal(n) && '_' !in Decimal(n)
  {
    NatTextIsDigits(if n < 0 then -n else n);
  }

  lemma DigitIsInjective(c: nat, d: nat)
    requires c < 10 && d < 10 && Digit(c) == Digit(d)
    ensures c == d
  {
  }

  lemma {:induction false} NatTextIsInjective(m: nat, n: nat)
    requires NatText(m) == NatText(n)
    ensures m == n
  {
    var a, b := NatText(m), NatText(n);
    assert a[|a| - 1] == Digit(m % 10) && b[|b| - 1] == Digit(n % 10);
    DigitIsInjective(m % 10, n % 10);
    NatTextIsDigits(m / 10);
    NatTextIsDigits(n / 10);
    assert (m < 10 <==> |a| == 1) && (n < 10 <==> |b| == 1);
    if m >= 10 {
      assert a[..|a| - 1] == NatText(m / 10) && b[..|b| - 1] == NatText(n / 10);
      NatTextIsInjective(m / 10, n / 10);
    }
  }

  lemma DecimalSign(n: int)
    ensures Decimal(n) != "" && (Decimal(n)[0] == '-' <==> n < 0)
  {
    var text := NatText(if n < 0 then -n else n);
    NatTextIsDigits(if n < 0 then -n else n);
    assert text[0] in text;
  }

  lemma DecimalIsInjective(m: int, n: int)
    requires Decimal(m) == Decimal(n)
    ensures m == n
  {
    DecimalSign(m);
    DecimalSign(n);
    if m < 0 {
      assert NatText(-m) == Decimal(m)[1..] && NatText(-n) == Decimal(n)[1..];
      NatTextIsInjective(-m, -n);
    } else {
      NatTextIsInjective(m, n);
    }
  }

  // ----- text up to a separator -----

  /** Two texts that agree up to and including a separator neither name contains have the same name there. */
  lemma SameName(u: string, v: string, sep: char, restU: string, restV: string)
    requires sep !in u && sep !in v
    requires u + [sep] + restU == v + [sep] + restV
    ensures u == v && restU == restV
  {
    var all := u + [sep] + restU;
    assert all[|u|] == sep && all[|v|] == sep;
    assert forall i :: 0 <= i < |u| ==> all[i] == u[i] && u[i] in u;
    assert forall i :: 0 <= i < |v| ==> all[i] == v[i] && v[i] in v;
    assert all[..|u|] == u && all[..|v|] == v;
    assert all[|u| + 1..] == restU && all[|v| + 1..] == restV;
  }

  lemma BeginsWithNameIff(head: string, u: string, v: string, tail: string)
    requires '/' !in u && '/' !in v
    ensures head + u + "/" <= head + v + "/" + tail <==> u == v
  {
    var part, all := head + u + "/", head + v + "/" + tail;
    if part <= all {
      var rest := all[|part|..];
      assert all[|head|..] == v + "/" + tail;
      assert all == part + rest;
      assert (part + rest)[|head|..] == u + "/" + rest;
      SameName(u, v, '/', rest, tail);
    }
  }

  /** The index under which the checks of a plan look a task up. */
  function TaskIndex(project: int, id: string): string {
    Decimal(project) + "_" + id
  }

  lemma TaskIndexIsInjective(a: Task, b: Task)
    ensures TaskIndex(a.project, a.id) == TaskIndex(b.project, b.id) <==> a == b
  {
    if TaskIndex(a.project, a.id) == TaskIndex(b.project, b.id) {
      DecimalHasNoSeparator(a.project);
      DecimalHasNoSeparator(b.project);
      SameName(Decimal(a.project), Decimal(b.project), '_', a.id, b.id);
      DecimalIsInjective(a.project, b.project);
    }
  }

  // ----- key families -----

  function TaskStatePrefix(workflow: int): string {
    ETCD_PREFIX + "/" + "t_flow" + "/" + Decimal(workflow) + "/"
  }

  function TaskStateKey(workflow: int, t: Task): string {
    TaskStatePrefix(workflow) + Decimal(t.project) + "/" + t.id
  }

  function PlanKey(workflow: int): string {
    ETCD_PREFIX + "/workflow_plan/" + Decimal(workflow)
  }

  function StatusKey(t: Task): string {
    ETCD_PREFIX + "/" + Decimal(t.project) + "/" + t.id + "/" + "t_status"
  }

  /** The prefix of a workflow's task keys hits the keys of that workflow only, for all ids and task names. */
  lemma TaskStatePrefixHitsIff(w: int, other: int, t: Task)
    ensures TaskStatePrefix(w) <= TaskStateKey(other, t) <==> w == other
  {
    var head := ETCD_PREFIX + "/" + "t_flow" + "/";
    var tail := Decimal(t.project) + "/" + t.id;
    assert TaskStateKey(other, t) == head + Decimal(other) + "/" + tail;
    DecimalHasNoSeparator(w);
    DecimalHasNoSeparator(other);
    BeginsWithNameIff(head, Decimal(w), Decimal(other), tail);
    if Decimal(w) == Decimal(other) {
      DecimalIsInjective(w, other);
    }
  }

  /** No two tasks of any workflows share a task key, whatever characters their ids contain. */
  lemma TaskStateKeyIsInjective(w: int, t: Task, other: int, u: Task)
    ensures TaskStateKey(w, t) == TaskStateKey(other, u) <==> w == other && t == u
  {
    if TaskStateKey(w, t) == TaskStateKey(other, u) {
      TaskStatePrefixHitsIff(w, other, u);
      assert TaskStatePrefix(w) <= TaskStateKey(w, t);
      var n, sep := |TaskStatePrefix(w)|, ['/'];
      assert TaskStateKey(w, t)[n..] == Decimal(t.project) + sep + t.id;
      assert TaskStateKey(other, u)[n..] == Decimal(u.project) + sep + u.id;
      DecimalHasNoSeparator(t.project);
      DecimalHasNoSeparator(u.project);
      SameName(Decimal(t.project), Decimal(u.project), '/', t.id, u.id);
      DecimalIsInjective(t.project, u.project);
    }
  }

  /** The plan key ends without a separator, so deleting it as a prefix hits the plan keys of every id whose
      text it begins. */
  lemma PlanKeyHitsIff(w: int, other: int)
    ensures PlanKey(w) <= PlanKey(other) <==> Decimal(w) <= Decimal(other)
  {
    var head := ETCD_PREFIX + "/workflow_plan/";
    if Decimal(w) <= Decimal(other) {
      assert Decimal(other)[..|Decimal(w)|] == Decimal(w);
      assert PlanKey(other)[..|PlanKey(w)|] == PlanKey(w);
    }
    if PlanKey(w) <= PlanKey(other) {
      assert PlanKey(other)[|head|..] == Decimal(other) && PlanKey(w)[|head|..] == Decimal(w);
      assert Decimal(other)[..|Decimal(w)|] == Decimal(w);
    }
  }

  /** `w` is `other` with any number of its last digits dropped. */
  predicate Shortens(w: nat, other: nat) {
    w == other || (other >= 10 && Shortens(w, other / 10))
  }

  /** In numbers: clearing workflow `w` deletes the plan key of every workflow whose id it shortens. */
  lemma {:induction false} TextBeginsIff(w: nat, other: nat)
    ensures Decimal(w) <= Decimal(other) <==> Shortens(w, other)
  {
    var a, b := NatText(w), NatText(other);
    NatTextIsDigits(w);
    if a == b {
      NatTextIsInjective(w, other);
    } else if other >= 10 {
      var front := NatText(other / 10);
      assert b == front + [Digit(other % 10)];
      if a <= b {
        assert |a| < |b| by {
          assert |a| == |b| ==> a == b;
        }
        assert a == b[..|a|] == front[..|a|];
      }
      assert a <= b <==> a <= front;
      TextBeginsIff(w, other / 10);
    }
  }

  lemma ClearingOneDeletesPlanTwelve()
    ensures PlanKey(1) <= PlanKey(12)
  {
    TextBeginsIff(1, 12);
    PlanKeyHitsIff(1, 12);
  }

  lemma FamiliesAreApart(w: int, other: int, t: Task)
    ensures !(PlanKey(w) <= TaskStateKey(other, t)) && !(TaskStatePrefix(w) <= PlanKey(other))
  {
    assert PlanKey(w)[6] == 'w' && PlanKey(other)[6] == 'w';
    assert TaskStatePrefix(w)[6] == 't' && TaskStateKey(other, t)[6] == 't';
  }

  class KeyStore {
    var kvs: map<string, string>

    constructor ()
      ensures kvs == map[]
    {
      kvs := map[];
    }

    method DeletePrefix(prefix: string)
      modifies this
      ensures kvs == map k | k in old(kvs) && !(prefix <= k) :: old(kvs)[k]
    {
      kvs := map k | k in kvs && !(prefix <= k) :: kvs[k];
    }

    /** Among task keys, exactly those of the workflow go; among plan keys, those whose id begins with the
        workflow's; no other plan or task key is touched. */
    method ClearWorkflowKeys(w: int)
      modifies this
      ensures forall other, t :: TaskStateKey(other, t) in kvs <==> TaskStateKey(other, t) in old(kvs) && other != w
      ensures forall other :: PlanKey(other) in kvs <==>
                PlanKey(other) in old(kvs) && !(Decimal(w) <= Decimal(other))
      ensures forall k :: k in kvs ==> k in old(kvs) && kvs[k] == old(kvs)[k]
      ensures forall k :: k in old(kvs) && k !in kvs ==> PlanKey(w) <= k || TaskStatePrefix(w) <= k
    {
      var delKeys := [PlanKey(w), TaskStatePrefix(w)];
      ghost var before := kvs;
      for i := 0 to |delKeys|
        invariant forall k :: k in kvs <==> k in before && forall j :: 0 <= j < i ==> !(delKeys[j] <= k)
        invariant forall k :: k in kvs ==> kvs[k] == before[k]
      {
        DeletePrefix(delKeys[i]);
      }
      assert forall k :: k in kvs <==> k in before && !(delKeys[0] <= k) && !(delKeys[1] <= k);
      forall other, t ensures TaskStateKey(other, t) in kvs <==> TaskStateKey(other, t) in before && other != w {
        TaskStatePrefixHitsIff(w, other, t);
        FamiliesAreApart(w, other, t);
      }
      forall other ensures PlanKey(other) in kvs <==> PlanKey(other) in before && !(Decimal(w) <= Decimal(other)) {
        PlanKeyHitsIff(w, other);
        FamiliesAreApart(w, other, Task(0, ""));
      }
    }
  }

  // ----- reading a status key back -----

  function Split(s: string): (parts: seq<string>)
    ensures parts != []
  {
    if s == "" then [""]
    else if s[0] == '/' then [""] + Split(s[1..])
    else var rest := Split(s[1..]); [[s[0]] + rest[0]] + rest[1..]
  }

  /** `PatchProjectIDTaskIDFromStatusKey`: the third and fourth of exactly five parts. */
  function ParseStatusKey(key: string): (string, string) {
    var sp := Split(key);
    if |sp| != 5 then ("", "") else (sp[2], sp[3])
  }

  lemma {:induction false} SplitAtSeparator(a: string, b: string)
    requires '/' !in a
    ensures Split(a + "/" + b) == [a] + Split(b)
  {
    var s := a + "/" + b;
    if a == "" {
      assert s[1..] == b;
    } else {
      assert s[0] == a[0] && s[1..] == a[1..] + "/" + b;
      SplitAtSeparator(a[1..], b);
      assert [a[0]] + a[1..] == a;
    }
  }

  lemma {:induction false} SplitLast(a: string, b: string)
    requires '/' !in b
    ensures Split(a + "/" + b) == Split(a) + [b]
    ensures |Split(a)| == 1 <==> '/' !in a
    ensures '/' !in a ==> Split(a) == [a]
  {
    var s := a + "/" + b;
    if a == "" {
      assert s[1..] == b;
      SplitName(b);
    } else {
      assert s[0] == a[0] && s[1..] == a[1..] + "/" + b;
      SplitLast(a[1..], b);
      assert '/' in a <==> a[0] == '/' || '/' in a[1..];
      if a[0] != '/' {
        var rest := Split(a[1..]);
        assert (rest + [b])[0] == rest[0] && (rest + [b])[1..] == rest[1..] + [b];
        if '/' !in a { assert [a[0]] + a[1..] == a; }
      } else {
        assert [""] + (Split(a[1..]) + [b]) == [""] + Split(a[1..]) + [b];
      }
    }
  }

  lemma {:induction false} SplitName(b: string)
    requires '/' !in b
    ensures Split(b) == [b]
  {
    if b != "" {
      SplitName(b[1..]);
      assert [b[0]] + b[1..] == b;
    }
  }

  /** Reading back a status key gives the project and the task id exactly when the id contains no slash. */
  lemma StatusKeyRoundTripIff(t: Task)
    ensures ParseStatusKey(StatusKey(t)) == (Decimal(t.project), t.id) <==> '/' !in t.id
  {
    var p := Decimal(t.project);
    DecimalHasNoSeparator(t.project);
    assert ETCD_PREFIX == "" + "/" + "cron";
    SplitFive(StatusKey(t), "", "cron", p, t.id, "t_status");
    SplitLast(t.id, "t_status");
  }

  lemma SplitFive(key: string, a: string, b: string, c: string, id: string, e: string)
    requires '/' !in a && '/' !in b && '/' !in c && '/' !in e
    requires key == a + "/" + b + "/" + c + "/" + id + "/" + e
    ensures Split(key) == [a, b, c] + Split(id) + [e]
  {
    var tail := id + "/" + e;
    var third := c + "/" + tail;
    var second := b + "/" + third;
    SplitLast(id, e);
    SplitAtSeparator(c, tail);
    SplitAtSeparator(b, third);
    SplitAtSeparator(a, second);
    RegroupFive(a, b, c, id, e);
    assert key == a + "/" + second;
  }

  lemma RegroupFive(a: string, b: string, c: string, id: string, e: string)
    ensures a + "/" + b + "/" + c + "/" + id + "/" + e == a + "/" + (b + "/" + (c + "/" + (id + "/" + e)))
  {
  }
}
