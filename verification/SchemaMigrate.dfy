/** The self-migrating boot of api/internal/db/migrate.go: the list read from the
    embedded file names, and any number of instances that apply it at once and
    may stop anywhere. A transaction takes effect at its commit. */
module SchemaMigrate {
  import opened Text
  import opened Runs

  datatype Migration = Migration(version: int, name: string, sql: string)

  // ---- the list of migrations ----

  datatype File = File(name: string, content: string)

  const SUFFIX := ".up.sql"
  const MAX_INT := 0x7FFF_FFFF_FFFF_FFFF

  predicate HasSuffix(s: string, suffix: string) {
    |suffix| <= |s| && s[|s| - |suffix|..] == suffix
  }

  /** strconv.Atoi */
  function Atoi(s: string): Option<int> {
    var signed := s != [] && (s[0] == '-' || s[0] == '+');
    var digits := if signed then s[1..] else s;
    if digits == [] || !AllDigits(digits) then None
    else
      var v: int := if signed && s[0] == '-' then 0 - Value(digits) else Value(digits);
      if -MAX_INT - 1 <= v <= MAX_INT then Some(v) else None
  }

  /** The text before the first separator, and the text after it. */
  function Cut(s: string, sep: char): Option<(string, string)> {
    if s == [] then None
    else if s[0] == sep then Some(([], s[1..]))
    else
      var rest := Cut(s[1..], sep);
      if rest.None? then None else Some(([s[0]] + rest.value.0, rest.value.1))
  }

  datatype Parsed = NotUp | BadName | Up(version: int, name: string)

  function ParseName(file: string): Parsed {
    if !HasSuffix(file, SUFFIX) then NotUp
    else
      var parts := Cut(file[..|file| - |SUFFIX|], '_');
      if parts.None? then BadName
      else
        var v := Atoi(parts.value.0);
        if v.None? then BadName else Up(v.value, parts.value.1)
  }

  lemma {:induction false} CutAt(a: string, sep: char, b: string)
    requires sep !in a
    ensures Cut(a + [sep] + b, sep) == Some((a, b))
  {
    var s := a + [sep] + b;
    if a == [] {
      assert s[1..] == b;
    } else {
      CutAt(a[1..], sep, b);
      assert s[1..] == a[1..] + [sep] + b && [s[0]] + a[1..] == a;
    }
  }

  /** A file named after the convention is read back with its version and name,
      whatever the name holds. */
  lemma FileNameRead(version: nat, name: string, width: nat)
    requires version <= MAX_INT
    ensures ParseName(ZeroPadded(version, width) + "_" + name + SUFFIX) == Up(version, name)
  {
    var digits := ZeroPadded(version, width);
    var file := digits + "_" + name + SUFFIX;
    assert file[..|file| - |SUFFIX|] == digits + ['_'] + name && file[|file| - |SUFFIX|..] == SUFFIX;
    assert '_' !in digits;
    CutAt(digits, '_', name);
    ValueOfZeroPadded(version, width);
    assert digits != [] by {
      assert |digits| >= |Dec(version)|;
    }
    assert IsDigit(digits[0]);
  }

  /** Signs are read, and numbers that do not fit 64 bits are refused. */
  lemma AtoiRead(digits: string)
    requires digits != [] && AllDigits(digits)
    ensures Atoi(digits) == Atoi("+" + digits)
    ensures Atoi(digits).Some? <==> Value(digits) <= MAX_INT
    ensures Atoi(digits).Some? ==> Atoi(digits).value == Value(digits)
    ensures Atoi("-" + digits).Some? <==> Value(digits) <= MAX_INT + 1
    ensures Atoi("-" + digits).Some? ==> Atoi("-" + digits).value + Value(digits) == 0
  {
    assert IsDigit(digits[0]);
    assert ("+" + digits)[1..] == digits && ("-" + digits)[1..] == digits;
    hide Value;
  }

  lemma {:induction false} CutIs(s: string, sep: char)
    ensures match Cut(s, sep)
            case None => sep !in s
            case Some((a, b)) => sep !in a && s == a + ([sep] + b)
  {
    if s != [] && s[0] != sep {
      CutIs(s[1..], sep);
      if Cut(s[1..], sep).Some? {
        var (a, b) := Cut(s[1..], sep).value;
        assert s == [s[0]] + s[1..] && [s[0]] + (a + ([sep] + b)) == ([s[0]] + a) + ([sep] + b);
      }
    }
  }

  /** What a file name says: nothing without the suffix; otherwise what stands
      before the first underscore must be a number, and the rest is the name. */
  lemma NameReadIff(file: string)
    ensures ParseName(file).NotUp? <==> !exists stem :: file == stem + SUFFIX
    ensures forall v, name :: ParseName(file) == Up(v, name) <==>
              exists digits :: file == digits + (['_'] + name) + SUFFIX && '_' !in digits && Atoi(digits) == Some(v)
  {
    hide Atoi, Cut;
    if HasSuffix(file, SUFFIX) {
      var stem := file[..|file| - |SUFFIX|];
      assert file == stem + SUFFIX;
      CutIs(stem, '_');
      forall v, name
        ensures ParseName(file) == Up(v, name) <==>
                exists digits :: file == digits + (['_'] + name) + SUFFIX && '_' !in digits && Atoi(digits) == Some(v)
      {
        forall digits | file == digits + (['_'] + name) + SUFFIX && '_' !in digits
          ensures Cut(stem, '_') == Some((digits, name))
        {
          StemIs(file, stem, digits + (['_'] + name));
          assert digits + ['_'] + name == digits + (['_'] + name);
          CutAt(digits, '_', name);
        }
        if ParseName(file) == Up(v, name) {
          var (digits, rest) := Cut(stem, '_').value;
          assert file == digits + (['_'] + name) + SUFFIX;
        }
      }
    } else {
      forall stem
        ensures file != stem + SUFFIX
      {
        assert (stem + SUFFIX)[|stem|..] == SUFFIX;
      }
      assert forall name, digits: string :: file != digits + (['_'] + name) + SUFFIX;
    }
  }

  lemma StemIs(file: string, a: string, b: string)
    requires file == a + SUFFIX && file == b + SUFFIX
    ensures a == b
  {
    assert a == file[..|file| - |SUFFIX|] == b;
  }

  function Insert(ms: seq<Migration>, m: Migration): seq<Migration> {
    if ms == [] || m.version < ms[0].version then [m] + ms else [ms[0]] + Insert(ms[1..], m)
  }

  function Sort(ms: seq<Migration>): seq<Migration> {
    if ms == [] then [] else Insert(Sort(ms[..|ms| - 1]), ms[|ms| - 1])
  }

  ghost predicate Ascending(ms: seq<Migration>) {
    forall i, j :: 0 <= i < j < |ms| ==> ms[i].version <= ms[j].version
  }

  ghost predicate Distinct(ms: seq<Migration>) {
    forall i, j :: 0 <= i < j < |ms| ==> ms[i].version != ms[j].version
  }

  lemma {:induction false} InsertAdds(ms: seq<Migration>, m: Migration)
    ensures multiset(Insert(ms, m)) == multiset(ms) + multiset{m}
  {
    if ms != [] && m.version >= ms[0].version {
      InsertAdds(ms[1..], m);
      assert ms == [ms[0]] + ms[1..];
      assert Insert(ms, m) == [ms[0]] + Insert(ms[1..], m);
      hide Insert;
    }
  }

  lemma {:induction false} InsertSorted(ms: seq<Migration>, m: Migration)
    requires Ascending(ms)
    ensures Ascending(Insert(ms, m))
  {
    if ms != [] && m.version >= ms[0].version {
      InsertSorted(ms[1..], m);
      InsertAdds(ms[1..], m);
      var rest := Insert(ms[1..], m);
      forall i | 0 <= i < |rest|
        ensures ms[0].version <= rest[i].version
      {
        assert rest[i] in multiset(rest);
        assert rest[i] == m || rest[i] in ms[1..];
      }
    }
  }

  lemma {:induction false} SortSorts(ms: seq<Migration>)
    ensures Ascending(Sort(ms)) && multiset(Sort(ms)) == multiset(ms)
  {
    if ms != [] {
      hide Insert, Ascending;
      SortSorts(ms[..|ms| - 1]);
      InsertSorted(Sort(ms[..|ms| - 1]), ms[|ms| - 1]);
      InsertAdds(Sort(ms[..|ms| - 1]), ms[|ms| - 1]);
      assert ms == ms[..|ms| - 1] + [ms[|ms| - 1]];
    }
  }

  lemma FirstIsLeast(a: seq<Migration>, m: Migration)
    requires Ascending(a) && m in multiset(a)
    ensures a != [] && a[0].version <= m.version
  {
    var i :| 0 <= i < |a| && a[i] == m;
  }

  lemma VersionNamesOne(a: seq<Migration>, m: Migration)
    requires Distinct(a) && m in multiset(a) && m.version == a[0].version
    ensures m == a[0]
  {
    var i :| 0 <= i < |a| && a[i] == m;
  }

  lemma TailsAgree(a: seq<Migration>, b: seq<Migration>)
    requires a != [] && b != [] && a[0] == b[0] && multiset(a) == multiset(b)
    ensures multiset(a[1..]) == multiset(b[1..])
  {
    assert a == [a[0]] + a[1..] && b == [b[0]] + b[1..];
    assert multiset(a[1..]) == multiset(a) - multiset{a[0]};
    assert multiset(b[1..]) == multiset(b) - multiset{b[0]};
  }

  /** With distinct versions there is one ascending order, so it does not matter
      that sort.Slice is not stable. */
  lemma {:induction false} OrderIsUnique(a: seq<Migration>, b: seq<Migration>)
    requires Ascending(a) && Ascending(b) && Distinct(a) && multiset(a) == multiset(b)
    ensures a == b
  {
    assert |multiset(a)| == |a| && |multiset(b)| == |b|;
    if a != [] {
      assert a[0] in multiset(a) && b[0] in multiset(b);
      FirstIsLeast(a, b[0]);
      FirstIsLeast(b, a[0]);
      VersionNamesOne(a, b[0]);
      TailsAgree(a, b);
      OrderIsUnique(a[1..], b[1..]);
      assert a == [a[0]] + a[1..] && b == [b[0]] + b[1..];
    }
  }

  /** The up files in directory order. */
  function UpFiles(files: seq<File>): seq<Migration> {
    if files == [] then []
    else
      var front := UpFiles(files[..|files| - 1]);
      var f := files[|files| - 1];
      match ParseName(f.name)
      case Up(version, name) => front + [Migration(version, name, f.content)]
      case _ => front
  }

  /** The file is the one that this migration was read from. */
  predicate Carries(f: File, m: Migration) {
    ParseName(f.name) == Up(m.version, m.name) && f.content == m.sql
  }

  /** The places in the directory that carry the migration. */
  function Places(files: seq<File>, m: Migration): set<nat> {
    set i: nat | i < |files| && Carries(files[i], m)
  }

  /** The list that a directory stands for: every migration as often as a file
      carries it, its script being the file's content. */
  ghost predicate Lists(files: seq<File>, all: seq<Migration>) {
    Ascending(all) && forall m :: multiset(all)[m] == |Places(files, m)|
  }

  lemma {:induction false} UpFilesCounted(files: seq<File>, m: Migration)
    ensures multiset(UpFiles(files))[m] == |Places(files, m)|
  {
    if files == [] {
      assert Places(files, m) == {};
    } else {
      var n := |files| - 1;
      var front, f := files[..n], files[n];
      UpFilesCounted(front, m);
      PlacesLast(files, m);
      UpFilesLast(files, m);
    }
  }

  lemma UpFilesLast(files: seq<File>, m: Migration)
    requires files != []
    ensures var n := |files| - 1;
            multiset(UpFiles(files))[m] ==
            multiset(UpFiles(files[..n]))[m] + if Carries(files[n], m) then 1 else 0
  {
    hide ParseName;
  }

  lemma PlacesLast(files: seq<File>, m: Migration)
    requires files != []
    ensures var n := |files| - 1;
            |Places(files, m)| == |Places(files[..n], m)| + if Carries(files[n], m) then 1 else 0
  {
    hide Carries;
    var n := |files| - 1;
    var all, front := Places(files, m), Places(files[..n], m);
    assert n !in front;
    if Carries(files[n], m) {
      assert all == front + {n};
    } else {
      assert all == front;
    }
  }

  /** One bad name stops the boot. */
  method LoadMigrations(files: seq<File>) returns (out: Option<seq<Migration>>)
    ensures out.None? <==> exists f :: f in files && ParseName(f.name).BadName?
    ensures out.Some? ==> Lists(files, out.value)
  {
    var found: seq<Migration> := [];
    var i := 0;
    while i < |files|
      invariant 0 <= i <= |files|
      invariant found == UpFiles(files[..i])
      invariant forall f :: f in files[..i] ==> !ParseName(f.name).BadName?
    {
      assert files[..i + 1] == files[..i] + [files[i]] && files[..i + 1][..i] == files[..i];
      var parsed := ParseName(files[i].name);
      if parsed.BadName? {
        return None;
      }
      if parsed.Up? {
        found := found + [Migration(parsed.version, parsed.name, files[i].content)];
      }
      i := i + 1;
    }
    assert files[..i] == files;
    SortSorts(found);
    forall m
      ensures multiset(Sort(found))[m] == |Places(files, m)|
    {
      UpFilesCounted(files, m);
    }
    return Some(Sort(found));
  }

  /** Listed migrations come from files, and files that can be read are listed. */
  lemma ListedIff(files: seq<File>, all: seq<Migration>, m: Migration)
    requires Lists(files, all)
    ensures m in all <==> exists f :: f in files && ParseName(f.name) == Up(m.version, m.name) && f.content == m.sql
  {
    hide ParseName;
    assert m in all <==> multiset(all)[m] > 0;
    if exists f :: f in files && Carries(f, m) {
      var i :| 0 <= i < |files| && Carries(files[i], m);
      assert i in Places(files, m);
    }
    if |Places(files, m)| > 0 {
      var i :| i in Places(files, m);
      assert files[i] in files;
    }
  }

  // ---- the database ----

  /** The rows of schema_migrations after these commits. */
  function RecordOf(commits: seq<Migration>): map<int, string> {
    if commits == [] then map[]
    else
      var last := commits[|commits| - 1];
      RecordOf(commits[..|commits| - 1])[last.version := last.name]
  }

  lemma {:induction false} RecordHas(commits: seq<Migration>, v: int)
    ensures v in RecordOf(commits) <==> exists i :: 0 <= i < |commits| && commits[i].version == v
  {
    if commits != [] {
      var front := commits[..|commits| - 1];
      RecordHas(front, v);
      if v in RecordOf(front) {
        var i :| 0 <= i < |front| && front[i].version == v;
        assert commits[i].version == v;
      } else if commits[|commits| - 1].version != v {
        assert forall i :: 0 <= i < |front| ==> front[i] == commits[i];
      }
    }
  }

  lemma RecordGrows(commits: seq<Migration>, m: Migration)
    ensures RecordOf(commits + [m]) == RecordOf(commits)[m.version := m.name]
  {
    assert (commits + [m])[..|commits|] == commits;
  }

  /** While the list is a prefix, the next version is recorded exactly when its
      script has been committed. */
  lemma RecordedIffCommitted(all: seq<Migration>, k: nat, i: nat)
    requires Distinct(all) && k <= |all| && i < |all|
    ensures all[i].version in RecordOf(all[..k]) <==> i < k
  {
    RecordHas(all[..k], all[i].version);
    if i < k {
      assert all[..k][i].version == all[i].version;
    } else {
      assert forall j :: 0 <= j < k ==> all[..k][j].version != all[i].version;
    }
  }

  datatype Fate = Works | Fails | AnswerLost

  class Database {
    var commits: seq<Migration>
    var recorded: map<int, string>

    ghost predicate Valid()
      reads this
    {
      recorded == RecordOf(commits)
    }

    constructor ()
      ensures Valid() && commits == []
    {
      commits, recorded := [], map[];
    }

    /** The script and its row, in one transaction; the primary key refuses a
        version a second time. */
    method Transaction(m: Migration, fate: Fate) returns (ok: bool)
      requires Valid()
      modifies this
      ensures Valid()
      ensures commits == if fate.Fails? || m.version in RecordOf(old(commits)) then old(commits) else old(commits) + [m]
      ensures ok == (fate.Works? && m.version !in RecordOf(old(commits)))
    {
      if fate.Fails? || m.version in recorded {
        return false;
      }
      RecordGrows(commits, m);
      commits := commits + [m];
      recorded := recorded[m.version := m.name];
      ok := fate.Works?;
    }
  }

  /** The list has distinct versions and the database is on its way through it. */
  ghost predicate Ordinary(before: seq<Migration>, migrations: seq<Migration>) {
    Distinct(migrations) && before <= migrations
  }

  /** What the loop has seen when it reaches entry i. */
  ghost predicate Passed(before: seq<Migration>, commits: seq<Migration>, migrations: seq<Migration>,
                         unread: set<int>, fates: nat -> Fate, i: nat)
    requires i <= |migrations| && before <= migrations
  {
    && commits <= migrations && |commits| == (if i < |before| then |before| else i)
    && (forall j :: 0 <= j < i && j < |before| ==> migrations[j].version !in unread)
    && (forall j :: |before| <= j < i ==> fates(j).Works?)
  }

  /** How an ordinary boot ends: without an error exactly when no row was missed
      and every pending transaction worked, and then with the whole list
      committed; otherwise right at the first transaction that did not work, or
      where it was. */
  ghost predicate Stopped(before: seq<Migration>, commits: seq<Migration>, migrations: seq<Migration>,
                          unread: set<int>, fates: nat -> Fate, ok: bool)
    requires before <= migrations
  {
    var missed := exists j :: 0 <= j < |before| && migrations[j].version in unread;
    && commits <= migrations
    && (ok <==> !missed && forall j :: |before| <= j < |migrations| ==> fates(j).Works?)
    && (ok ==> commits == migrations)
    && (missed ==> commits == before)
    && (!ok && !missed ==>
          exists j :: |before| <= j < |migrations| && !fates(j).Works?
                      && (forall k :: |before| <= k < j ==> fates(k).Works?)
                      && |commits| == if fates(j).Fails? then j else j + 1)
  }

  lemma StopsHere(before: seq<Migration>, commits: seq<Migration>, after: seq<Migration>, migrations: seq<Migration>,
                  unread: set<int>, fates: nat -> Fate, i: nat)
    requires before <= migrations && i < |migrations| && Passed(before, commits, migrations, unread, fates, i)
    requires i < |before| ==> migrations[i].version in unread && after == commits
    requires i >= |before| ==> !fates(i).Works?
                               && after == if fates(i).Fails? then commits else commits + [migrations[i]]
    ensures Stopped(before, after, migrations, unread, fates, false)
  {
    if i < |before| {
      assert after == before;
    } else {
      assert migrations[..i] + [migrations[i]] == migrations[..i + 1];
    }
  }

  lemma EndsWell(before: seq<Migration>, commits: seq<Migration>, migrations: seq<Migration>,
                 unread: set<int>, fates: nat -> Fate)
    requires before <= migrations && Passed(before, commits, migrations, unread, fates, |migrations|)
    ensures Stopped(before, commits, migrations, unread, fates, true)
  {
  }

  /** One boot that nobody disturbs. `unread` are the rows the SELECT failed to
      deliver (a broken read is not noticed), `fates` what becomes of the
      transaction for each entry. */
  method Migrate(db: Database, migrations: seq<Migration>, unread: set<int>, fates: nat -> Fate) returns (ok: bool)
    requires db.Valid()
    modifies db
    ensures db.Valid() && old(db.commits) <= db.commits
    ensures ok ==> forall j :: 0 <= j < |migrations| ==> migrations[j].version in db.recorded
    ensures Ordinary(old(db.commits), migrations)
            ==> Stopped(old(db.commits), db.commits, migrations, unread, fates, ok)
  {
    hide Distinct, RecordOf, Stopped;
    ghost var before := db.commits;
    var applied := db.recorded.Keys - unread;
    var i := 0;
    while i < |migrations|
      invariant 0 <= i <= |migrations| && db.Valid() && before <= db.commits
      invariant applied <= db.recorded.Keys
      invariant forall j :: 0 <= j < i ==> migrations[j].version in db.recorded
      invariant Ordinary(before, migrations) ==> Passed(before, db.commits, migrations, unread, fates, i)
    {
      var m := migrations[i];
      if Ordinary(before, migrations) {
        assert db.commits == migrations[..|db.commits|] && before == migrations[..|before|];
        RecordedIffCommitted(migrations, |db.commits|, i);
        RecordedIffCommitted(migrations, |before|, i);
      }
      if m.version !in applied {
        ghost var commits := db.commits;
        RecordGrows(db.commits, m);
        var done := db.Transaction(m, fates(i));
        if !done {
          if Ordinary(before, migrations) {
            StopsHere(before, commits, db.commits, migrations, unread, fates, i);
          }
          return false;
        }
      }
      i := i + 1;
    }
    ok := true;
    if Ordinary(before, migrations) {
      EndsWell(before, db.commits, migrations, unread, fates);
    }
  }

  // ---- every run of any number of instances ----

  /** An instance knows the first `n` entries of the list (an older program knows
      fewer), and works its way through them. */
  datatype Instance =
    | Reading(n: nat)
    | Looping(n: nat, i: nat, applied: set<int>)
    | Ended(n: nat, ok: bool)

  datatype State = State(commits: seq<Migration>, recorded: map<int, string>, instances: map<nat, Instance>)

  const FRESH := State([], map[], map[])

  datatype Event =
    | Boot(p: nat, n: nat)
    | Read(p: nat, unread: set<int>, errs: bool)
    | Next(p: nat, fate: Fate)
    | Crash(p: nat)

  function Become(s: State, p: nat, t: Instance): State {
    s.(instances := s.instances[p := t])
  }

  function Apply(all: seq<Migration>, s: State, e: Event): State {
    match e
    case Boot(p, n) => if p in s.instances || n > |all| then s else Become(s, p, Reading(n))
    case Read(p, unread, errs) =>
      if p !in s.instances || !s.instances[p].Reading? then s
      else if errs then Become(s, p, Ended(s.instances[p].n, false))
      else Become(s, p, Looping(s.instances[p].n, 0, s.recorded.Keys - unread))
    case Next(p, fate) =>
      if p !in s.instances || !s.instances[p].Looping? then s else Advance(all, s, p, s.instances[p], fate)
    case Crash(p) => s.(instances := s.instances - {p})
  }

  function Advance(all: seq<Migration>, s: State, p: nat, t: Instance, fate: Fate): State
    requires t.Looping?
  {
    if t.i >= t.n || t.i >= |all| then Become(s, p, Ended(t.n, true))
    else
      var m := all[t.i];
      if m.version in t.applied then Become(s, p, t.(i := t.i + 1))
      else if fate.Fails? || m.version in s.recorded then Become(s, p, Ended(t.n, false))
      else
        var u := s.(commits := s.commits + [m], recorded := s.recorded[m.version := m.name]);
        Become(u, p, if fate.Works? then t.(i := t.i + 1) else Ended(t.n, false))
  }

  /** The step of programs that know parts of this list. */
  function Step(all: seq<Migration>): (State, Event) -> State {
    (s: State, e: Event) => Apply(all, s, e)
  }

  function Run(all: seq<Migration>, es: seq<Event>): State {
    RunFrom(Step(all), FRESH, es)
  }

  ghost predicate InstanceOk(all: seq<Migration>, s: State, t: Instance) {
    && t.n <= |all|
    && (t.Looping? ==> t.i <= t.n && t.i <= |s.commits| && t.applied <= s.recorded.Keys)
    && (t.Ended? && t.ok ==> t.n <= |s.commits|)
  }

  ghost predicate Inv(all: seq<Migration>, s: State) {
    && s.commits <= all && s.recorded == RecordOf(s.commits)
    && forall p :: p in s.instances ==> InstanceOk(all, s, s.instances[p])
  }

  lemma AdvanceKeeps(all: seq<Migration>, s: State, p: nat, fate: Fate)
    requires Distinct(all) && Inv(all, s) && p in s.instances && s.instances[p].Looping?
    ensures Inv(all, Advance(all, s, p, s.instances[p], fate))
  {
    hide RecordOf, Distinct;
    var t := s.instances[p];
    var u := Advance(all, s, p, t, fate);
    assert InstanceOk(all, s, t);
    AdvanceCommits(all, s, p, t, fate);
    hide Advance;
    forall q | q in u.instances
      ensures InstanceOk(all, u, u.instances[q])
    {
      if q != p {
        assert InstanceOk(all, s, s.instances[q]);
      }
    }
  }

  lemma AdvanceCommits(all: seq<Migration>, s: State, p: nat, t: Instance, fate: Fate)
    requires Distinct(all) && s.commits <= all && s.recorded == RecordOf(s.commits)
    requires t.Looping? && InstanceOk(all, s, t)
    ensures var u := Advance(all, s, p, t, fate);
            && u.commits <= all && u.recorded == RecordOf(u.commits)
            && |s.commits| <= |u.commits| && s.recorded.Keys <= u.recorded.Keys
            && u.instances.Keys == s.instances.Keys + {p} && InstanceOk(all, u, u.instances[p])
            && (forall q :: q in s.instances && q != p ==> u.instances[q] == s.instances[q])
  {
    hide RecordOf, Distinct;
    if t.i < t.n {
      assert s.commits == all[..|s.commits|];
      RecordedIffCommitted(all, |s.commits|, t.i);
      RecordGrows(s.commits, all[t.i]);
    }
  }

  lemma ApplyKeeps(all: seq<Migration>, s: State, e: Event)
    requires Distinct(all) && Inv(all, s)
    ensures Inv(all, Apply(all, s, e))
  {
    if e.Next? && e.p in s.instances && s.instances[e.p].Looping? {
      AdvanceKeeps(all, s, e.p, e.fate);
    } else {
      hide Distinct, RecordOf, Advance;
    }
  }

  lemma RunInv(all: seq<Migration>, es: seq<Event>)
    requires Distinct(all)
    ensures Inv(all, Run(all, es))
  {
    assert Inv(all, FRESH);
    hide Inv, Apply, Distinct;
    forall s, e | Inv(all, s)
      ensures Inv(all, Step(all)(s, e))
    {
      ApplyKeeps(all, s, e);
    }
    RunKeeps(Step(all), s => Inv(all, s), FRESH, es);
  }

  // ---- main results ----

  /** If p ended without an error, every script it knows is committed. */
  predicate Settled(all: seq<Migration>, s: State, p: nat) {
    p in s.instances && s.instances[p].Ended? && s.instances[p].ok ==>
      s.instances[p].n <= |all| && all[..s.instances[p].n] <= s.commits
  }

  /** However many instances boot at once, crash anywhere, lose an answer or miss
      rows of the read: the committed scripts are a prefix of the list, the
      recorded rows are exactly theirs, and an instance that ended without an
      error leaves every script it knows committed. */
  lemma CommitsAreAPrefix(all: seq<Migration>, es: seq<Event>, p: nat)
    requires Distinct(all)
    ensures var s := Run(all, es);
            && s.commits <= all && s.recorded == RecordOf(s.commits)
            && Settled(all, s, p)
  {
    RunInv(all, es);
    var s := Run(all, es);
    if p in s.instances {
      assert InstanceOk(all, s, s.instances[p]);
    }
  }

  /** From the directory to the database: when a boot that knows the whole list
      reports no error, the committed scripts are exactly the contents of the up
      files, under the versions and names that the file names say. */
  lemma FilesAreRun(files: seq<File>, all: seq<Migration>, es: seq<Event>, p: nat, m: Migration)
    requires Lists(files, all) && Distinct(all)
    requires var s := Run(all, es);
             p in s.instances && s.instances[p].Ended? && s.instances[p].ok && s.instances[p].n >= |all|
    ensures m in Run(all, es).commits
            <==> exists f :: f in files && ParseName(f.name) == Up(m.version, m.name) && f.content == m.sql
  {
    hide ParseName, Lists, Distinct, RecordOf;
    CommitsAreAPrefix(all, es, p);
    ListedIff(files, all, m);
    assert all[..|all|] == all;
    hide Run;
    assert Run(all, es).commits == all;
  }

  /** On an ascending list no pending version is below a committed one. */
  lemma NoneSkipped(all: seq<Migration>, es: seq<Event>, done: Migration, pending: Migration)
    requires Distinct(all) && Ascending(all)
    requires done in Run(all, es).commits && pending in all && pending !in Run(all, es).commits
    ensures done.version < pending.version
  {
    CommitsAreAPrefix(all, es, 0);
    var commits := Run(all, es).commits;
    var i :| 0 <= i < |commits| && commits[i] == done;
    var j :| 0 <= j < |all| && all[j] == pending;
    assert all[i] == done;
    assert j >= |commits| by {
      assert forall k :: 0 <= k < |commits| ==> all[k] == commits[k];
    }
  }

  /** With any list at all, no version is committed twice. */
  lemma CommittedOnce(all: seq<Migration>, s: State, es: seq<Event>)
    requires Once(s)
    ensures Once(RunFrom(Step(all), s, es))
  {
    hide Apply, Once;
    forall t, e | Once(t)
      ensures Once(Step(all)(t, e))
    {
      ApplyOnce(all, t, e);
    }
    RunKeeps(Step(all), t => Once(t), s, es);
  }

  /** No version was committed twice, and the recorded rows are those committed. */
  ghost predicate Once(s: State) {
    Distinct(s.commits) && s.recorded == RecordOf(s.commits)
  }

  lemma ApplyOnce(all: seq<Migration>, s: State, e: Event)
    requires Once(s)
    ensures Once(Apply(all, s, e))
  {
    hide RecordOf, Distinct, Advance;
    if e.Next? && e.p in s.instances && s.instances[e.p].Looping? {
      AdvanceOnce(all, s, e.p, s.instances[e.p], e.fate);
    }
  }

  lemma AdvanceOnce(all: seq<Migration>, s: State, p: nat, t: Instance, fate: Fate)
    requires Distinct(s.commits) && s.recorded == RecordOf(s.commits) && t.Looping?
    ensures Distinct(Advance(all, s, p, t, fate).commits)
    ensures Advance(all, s, p, t, fate).recorded == RecordOf(Advance(all, s, p, t, fate).commits)
  {
    hide RecordOf, Distinct;
    if t.i < |all| {
      if all[t.i].version !in s.recorded {
        DistinctGrows(s.commits, all[t.i]);
      }
      RecordGrows(s.commits, all[t.i]);
    }
  }

  lemma DistinctGrows(commits: seq<Migration>, m: Migration)
    requires Distinct(commits) && m.version !in RecordOf(commits)
    ensures Distinct(commits + [m])
  {
    RecordHas(commits, m.version);
    assert forall i :: 0 <= i < |commits| ==> commits[i].version != m.version;
  }

  // ---- a repeated version ----

  /** p takes k steps, and every transaction works. */
  function Steps(p: nat, k: nat): seq<Event> {
    if k == 0 then [] else [Next(p, Works)] + Steps(p, k - 1)
  }

  lemma NextStep(all: seq<Migration>, s: State, p: nat, k: nat)
    requires k > 0
    ensures RunFrom(Step(all), s, Steps(p, k)) == RunFrom(Step(all), Apply(all, s, Next(p, Works)), Steps(p, k - 1))
  {
    hide Apply;
    assert Steps(p, k)[1..] == Steps(p, k - 1);
  }

  lemma CommitStep(all: seq<Migration>, s: State, p: nat, n: nat, i: nat)
    requires n <= |all| && Distinct(all[..n]) && i < n
    requires p in s.instances && s.instances[p] == Looping(n, i, {})
    requires s.commits == all[..i] && s.recorded == RecordOf(all[..i])
    ensures var t := Apply(all, s, Next(p, Works));
            && p in t.instances && t.instances[p] == Looping(n, i + 1, {}) && t.instances.Keys == s.instances.Keys
            && t.commits == all[..i + 1] && t.recorded == RecordOf(all[..i + 1])
  {
    assert all[..n][..i] == all[..i] && all[..n][i] == all[i];
    RecordedIffCommitted(all[..n], i, i);
    RecordGrows(all[..i], all[i]);
    hide Distinct, RecordOf;
    assert all[..i] + [all[i]] == all[..i + 1];
  }

  /** An instance that starts with an empty database commits the list up to the
      first repeated version. */
  lemma {:induction false} FirstBoot(all: seq<Migration>, s: State, p: nat, n: nat, i: nat)
    requires n <= |all| && Distinct(all[..n]) && i <= n
    requires p in s.instances && s.instances[p] == Looping(n, i, {})
    requires s.commits == all[..i] && s.recorded == RecordOf(all[..i])
    ensures var t := RunFrom(Step(all), s, Steps(p, n - i)); t.commits == all[..n] && t.recorded == RecordOf(all[..n])
    ensures RunFrom(Step(all), s, Steps(p, n - i)).instances.Keys == s.instances.Keys
    decreases n - i
  {
    if i < n {
      NextStep(all, s, p, n - i);
      CommitStep(all, s, p, n, i);
      hide Apply, Distinct, RecordOf;
      FirstBoot(all, Apply(all, s, Next(p, Works)), p, n, i + 1);
    }
  }

  /** An instance that finds every version recorded ends without an error. */
  lemma {:induction false} SecondBoot(all: seq<Migration>, s: State, p: nat, n: nat, i: nat)
    requires n <= |all| && i <= n && p in s.instances && s.instances[p] == Looping(n, i, s.recorded.Keys)
    requires forall j :: 0 <= j < n ==> all[j].version in s.recorded
    ensures var t := RunFrom(Step(all), s, Steps(p, n - i + 1));
            t.commits == s.commits && p in t.instances && t.instances[p] == Ended(n, true)
    decreases n - i
  {
    NextStep(all, s, p, n - i + 1);
    var t := Apply(all, s, Next(p, Works));
    if i < n {
      SecondBoot(all, t, p, n, i + 1);
    } else {
      assert RunFrom(Step(all), t, Steps(p, 0)) == t;
    }
  }

  /** Where a version first repeats. */
  lemma {:induction false} FirstRepeat(all: seq<Migration>) returns (n: nat)
    requires !Distinct(all)
    ensures n < |all| && Distinct(all[..n]) && exists i :: 0 <= i < n && all[i].version == all[n].version
  {
    var m := |all| - 1;
    var front := all[..m];
    if Distinct(front) {
      var i, j :| 0 <= i < j < |all| && all[i].version == all[j].version;
      assert j == m by {
        assert forall a, b :: 0 <= a < b < m ==> front[a].version != front[b].version;
        assert forall a :: 0 <= a < m ==> front[a] == all[a];
      }
      n := m;
    } else {
      n := FirstRepeat(front);
      assert front[..n] == all[..n];
    }
  }

  ghost predicate BootsApply(all: seq<Migration>, es: seq<Event>) {
    forall p :: Settled(all, Run(all, es), p)
  }

  function BootEvents(p: nat, n: nat): seq<Event> {
    [Boot(p, n), Read(p, {}, false)]
  }

  lemma BootTwo(all: seq<Migration>, s: State, p: nat, n: nat)
    requires p !in s.instances && n <= |all|
    ensures RunFrom(Step(all), s, BootEvents(p, n)) == Become(s, p, Looping(n, 0, s.recorded.Keys))
  {
    TwoEvents(all, s, Boot(p, n), Read(p, {}, false));
    assert s.recorded.Keys - {} == s.recorded.Keys;
    assert s.instances[p := Reading(n)][p := Looping(n, 0, s.recorded.Keys)]
        == s.instances[p := Looping(n, 0, s.recorded.Keys)];
  }

  lemma FirstPart(all: seq<Migration>, n: nat)
    requires n <= |all| && Distinct(all[..n])
    ensures var s := RunFrom(Step(all), FRESH, BootEvents(0, n) + Steps(0, n));
            s.commits == all[..n] && s.recorded == RecordOf(all[..n]) && s.instances.Keys == {0}
  {
    var s := Become(FRESH, 0, Looping(n, 0, FRESH.recorded.Keys));
    BootTwo(all, FRESH, 0, n);
    RunConcat(Step(all), FRESH, BootEvents(0, n), Steps(0, n));
    assert all[..0] == [] && RecordOf([]) == map[];
    hide BootEvents, Steps, RunFrom, Distinct, RecordOf, Apply;
    FirstBoot(all, s, 0, n, 0);
  }

  lemma SecondPart(all: seq<Migration>, s: State, n: nat)
    requires n < |all| && 1 !in s.instances
    requires forall j :: 0 <= j <= n ==> all[j].version in s.recorded
    ensures var t := RunFrom(Step(all), s, BootEvents(1, n + 1) + Steps(1, n + 2));
            t.commits == s.commits && 1 in t.instances && t.instances[1] == Ended(n + 1, true)
  {
    BootTwo(all, s, 1, n + 1);
    RunConcat(Step(all), s, BootEvents(1, n + 1), Steps(1, n + 2));
    hide BootEvents, Steps, RunFrom;
    SecondBoot(all, Become(s, 1, Looping(n + 1, 0, s.recorded.Keys)), 1, n + 1, 0);
  }

  /** The run that hides a repeated version: the first program knows the list up
      to it, the next one skips it and reports success. */
  lemma RepeatIsHidden(all: seq<Migration>) returns (es: seq<Event>)
    requires !Distinct(all)
    ensures !BootsApply(all, es)
  {
    hide Distinct, RunFrom, BootEvents, Steps, RecordOf;
    var n := FirstRepeat(all);
    var first, second := BootEvents(0, n) + Steps(0, n), BootEvents(1, n + 1) + Steps(1, n + 2);
    FirstPart(all, n);
    AllRecorded(all, n);
    SecondPart(all, RunFrom(Step(all), FRESH, first), n);
    es := first + second;
    RunConcat(Step(all), FRESH, first, second);
    assert !Settled(all, Run(all, es), 1);
  }

  lemma AllRecorded(all: seq<Migration>, n: nat)
    requires n < |all| && exists i :: 0 <= i < n && all[i].version == all[n].version
    ensures forall j :: 0 <= j <= n ==> all[j].version in RecordOf(all[..n])
  {
    forall j | 0 <= j <= n
      ensures all[j].version in RecordOf(all[..n])
    {
      var i: nat :| i < n && all[i].version == all[n].version;
      i := if j < n then j else i;
      RecordHas(all[..n], all[j].version);
      assert all[..n][i].version == all[j].version;
    }
  }

  lemma TwoEvents(all: seq<Migration>, s: State, e0: Event, e1: Event)
    ensures RunFrom(Step(all), s, [e0, e1]) == Apply(all, Apply(all, s, e0), e1)
  {
    hide Apply;
    FirstStep(Step(all), s, e0, [e1]);
    OneStep(Step(all), Apply(all, s, e0), e1);
    assert [e0, e1] == [e0] + [e1];
  }

  /** A boot that reports no error has left its whole list committed, in every
      run, exactly when the versions are distinct. */
  lemma BootsApplyIffDistinct(all: seq<Migration>)
    ensures (forall es :: BootsApply(all, es)) <==> Distinct(all)
  {
    if Distinct(all) {
      forall es
        ensures BootsApply(all, es)
      {
        forall p
          ensures Settled(all, Run(all, es), p)
        {
          CommitsAreAPrefix(all, es, p);
        }
      }
    } else {
      var es := RepeatIsHidden(all);
    }
  }
}
