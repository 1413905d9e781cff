/** The client-list editor: identifiers generated from a client's name and
    a timestamp, and the add, update-by-id and delete-by-id operations on
    the stored client list. Persisting the list is not part of this model;
    the list is a field the operations update. Case mapping and trimming are
    restricted to ASCII. */
module ClientAdmin {
  import opened Basics

  // ---------------------------------------------------------------------
  // Slugs

  /** A character the slug keeps: `[a-z0-9]`. */
  predicate IsSlugChar(c: char) { IsLowerAscii(c) || IsDigit(c) }

  /** `s` without its leading run of characters outside `[a-z0-9]`. */
  function DropRun(s: string): (r: string)
    ensures |r| <= |s|
    ensures r == [] || IsSlugChar(r[0])
    ensures s != [] && !IsSlugChar(s[0]) ==> |r| < |s|
    decreases |s|
  {
    if s == [] || IsSlugChar(s[0]) then s else DropRun(s[1..])
  }

  /** `.replace(/[^a-z0-9]+/g, '-')`: each maximal run of characters outside
      `[a-z0-9]` becomes a single '-'. */
  function Collapse(s: string): string
    decreases |s|
  {
    if s == [] then []
    else if IsSlugChar(s[0]) then [s[0]] + Collapse(s[1..])
    else "-" + Collapse(DropRun(s))
  }

  /** `.replace(/^-|-$/g, '')`: one leading and one trailing '-' removed. */
  function StripDashes(s: string): (r: string)
    ensures |r| <= |s|
  {
    var a := if s != [] && s[0] == '-' then s[1..] else s;
    if a != [] && a[|a| - 1] == '-' then a[..|a| - 1] else a
  }

  /** The slug of `generateId`. */
  function Slug(name: string): string {
    StripDashes(Collapse(LowerAscii(name)))
  }

  /** The characters of `s` that the slug keeps, in order. */
  function Kept(s: string): (r: string)
    ensures |r| <= |s|
    decreases |s|
  {
    if s == [] then [] else (if IsSlugChar(s[0]) then [s[0]] else []) + Kept(s[1..])
  }

  predicate SlugShaped(s: string) {
    && (forall i :: 0 <= i < |s| ==> IsSlugChar(s[i]) || s[i] == '-')
    && (forall i :: 0 <= i < |s| - 1 ==> !(s[i] == '-' && s[i + 1] == '-'))
  }

  lemma {:induction false} KeptAppend(a: string, b: string)
    ensures Kept(a + b) == Kept(a) + Kept(b)
    decreases |a|
  {
    if a == [] {
      assert a + b == b;
    } else {
      var ab := a + b;
      assert ab[0] == a[0];
      assert ab[1..] == a[1..] + b;
      KeptAppend(a[1..], b);
      assert Kept(ab) == (if IsSlugChar(a[0]) then [a[0]] else []) + Kept(a[1..] + b);
    }
  }

  /** Dropping characters outside `[a-z0-9]` does not change what is kept. */
  lemma {:induction false} KeptDropRun(s: string)
    ensures Kept(DropRun(s)) == Kept(s)
    decreases |s|
  {
    if s != [] && !IsSlugChar(s[0]) {
      KeptDropRun(s[1..]);
    }
  }

  /** Collapsing keeps every slug character, in order, and only adds '-'. */
  lemma {:induction false} CollapseKept(s: string)
    ensures Kept(Collapse(s)) == Kept(s)
    decreases |s|
  {
    if s == [] {
    } else if IsSlugChar(s[0]) {
      CollapseKept(s[1..]);
      KeptAppend([s[0]], Collapse(s[1..]));
    } else {
      CollapseKept(DropRun(s));
      KeptDropRun(s);
      KeptAppend("-", Collapse(DropRun(s)));
    }
  }

  /** A collapsed string holds only slug characters and single dashes, and
      it starts with a slug character when the input does. */
  lemma {:induction false} CollapseShape(s: string)
    ensures SlugShaped(Collapse(s))
    ensures Collapse(s) == [] <==> s == []
    ensures s != [] && IsSlugChar(s[0]) ==> Collapse(s)[0] == s[0]
    decreases |s|
  {
    if s == [] {
    } else if IsSlugChar(s[0]) {
      CollapseShape(s[1..]);
      var c := Collapse(s[1..]);
      assert Collapse(s) == [s[0]] + c;
    } else {
      var d := DropRun(s);
      CollapseShape(d);
      var c := Collapse(d);
      assert Collapse(s) == "-" + c;
      assert c != [] ==> c[0] != '-';
    }
  }

  lemma KeptStrip(s: string)
    ensures Kept(StripDashes(s)) == Kept(s)
  {
    var a := if s != [] && s[0] == '-' then s[1..] else s;
    if s != [] && s[0] == '-' {
      KeptAppend([s[0]], s[1..]);
      assert s == [s[0]] + s[1..];
    }
    if a != [] && a[|a| - 1] == '-' {
      KeptAppend(a[..|a| - 1], [a[|a| - 1]]);
      assert a == a[..|a| - 1] + [a[|a| - 1]];
    }
  }

  /** The slug consists of `[a-z0-9]` and '-' only, never starts or ends
      with '-', never holds two adjacent '-', and keeps every `[a-z0-9]`
      character of the lower-cased name in order. */
  lemma SlugProperties(name: string)
    ensures SlugShaped(Slug(name))
    ensures Slug(name) != [] ==> Slug(name)[0] != '-' && Slug(name)[|Slug(name)| - 1] != '-'
    ensures Kept(Slug(name)) == Kept(LowerAscii(name))
  {
    var c := Collapse(LowerAscii(name));
    CollapseShape(LowerAscii(name));
    CollapseKept(LowerAscii(name));
    KeptStrip(c);
    StripShape(c);
  }

  /** Stripping one dash at each end of a slug-shaped string leaves no dash
      at either end. */
  lemma StripShape(c: string)
    requires SlugShaped(c)
    ensures SlugShaped(StripDashes(c))
    ensures StripDashes(c) != [] ==> StripDashes(c)[0] != '-' && StripDashes(c)[|StripDashes(c)| - 1] != '-'
  {
    var a := if c != [] && c[0] == '-' then c[1..] else c;
    assert SlugShaped(a);
    assert a != [] ==> a[0] != '-' by {
      if c != [] && c[0] == '-' && |c| > 1 {
        assert c[1] != '-';
      }
    }
    if a != [] && a[|a| - 1] == '-' {
      var r := a[..|a| - 1];
      assert SlugShaped(r);
      if |a| > 1 {
        assert a[|a| - 2] != '-';
      }
    }
  }

  lemma CollapseSlugChar(c: char, s: string)
    requires IsSlugChar(c)
    ensures Collapse([c] + s) == [c] + Collapse(s)
  {
    assert ([c] + s)[1..] == s;
  }

  /** `DropRun` keeps a suffix of its input. */
  lemma {:induction false} DropRunSuffix(s: string)
    ensures DropRun(s) == s[|s| - |DropRun(s)|..]
    decreases |s|
  {
    if s != [] && !IsSlugChar(s[0]) {
      DropRunSuffix(s[1..]);
    }
  }

  /** A run of dropped characters never reaches past a slug character: when
      `a` ends in `[a-z0-9]`, what follows it is untouched. */
  lemma {:induction false} DropRunAppend(a: string, b: string)
    requires a != [] && IsSlugChar(a[|a| - 1])
    ensures DropRun(a + b) == DropRun(a) + b
    decreases |a|
  {
    if IsSlugChar(a[0]) {
      assert (a + b)[0] == a[0];
    } else {
      assert (a + b)[0] == a[0];
      assert (a + b)[1..] == a[1..] + b;
      DropRunAppend(a[1..], b);
    }
  }

  /** Collapsing works piece by piece across a boundary that follows a slug
      character, so a run is never split or merged with the next one. */
  lemma {:induction false} CollapseAppend(a: string, b: string)
    requires a == [] || IsSlugChar(a[|a| - 1])
    ensures Collapse(a + b) == Collapse(a) + Collapse(b)
    decreases |a|
  {
    if a == [] {
      assert a + b == b;
    } else if IsSlugChar(a[0]) {
      CollapseAppend(a[1..], b);
      CollapseAppendSlug(a, b);
    } else {
      var d := DropRun(a);
      DropRunSuffix(a);
      assert d != [] ==> d[|d| - 1] == a[|a| - 1];
      CollapseAppend(d, b);
      CollapseAppendRun(a, b);
    }
  }

  /** The step of `CollapseAppend` for a leading slug character. */
  lemma {:induction false} CollapseAppendSlug(a: string, b: string)
    requires a != [] && IsSlugChar(a[0])
    requires Collapse(a[1..] + b) == Collapse(a[1..]) + Collapse(b)
    ensures Collapse(a + b) == Collapse(a) + Collapse(b)
  {
    var rest := a[1..];
    assert a == [a[0]] + rest;
    assert a + b == [a[0]] + (rest + b);
    CollapseSlugChar(a[0], rest + b);
    CollapseSlugChar(a[0], rest);
  }

  /** The step of `CollapseAppend` for a leading run outside `[a-z0-9]`. */
  lemma {:induction false} CollapseAppendRun(a: string, b: string)
    requires a != [] && !IsSlugChar(a[0]) && IsSlugChar(a[|a| - 1])
    requires Collapse(DropRun(a) + b) == Collapse(DropRun(a)) + Collapse(b)
    ensures Collapse(a + b) == Collapse(a) + Collapse(b)
  {
    var x, y := Collapse(DropRun(a)), Collapse(b);
    assert Collapse(a + b) == "-" + (x + y) by {
      assert (a + b)[0] == a[0];
      DropRunAppend(a, b);
    }
    assert Collapse(a) == "-" + x;
    assert "-" + (x + y) == ("-" + x) + y;
  }

  /** A whole run of characters outside `[a-z0-9]` becomes exactly one '-'. */
  lemma CollapseRun(r: string)
    requires r != []
    requires forall i :: 0 <= i < |r| ==> !IsSlugChar(r[i])
    ensures Collapse(r) == "-"
  {
    var d := DropRun(r);
    DropRunSuffix(r);
    assert d == [];
  }

  lemma CollapseExample()
    ensures Collapse("a b.") == "a-b-"
  {
    assert DropRun(".") == "";
    assert Collapse(".") == "-";
    CollapseSlugChar('b', ".");
    assert "b." == ['b'] + ".";
    assert " b."[1..] == "b.";
    assert DropRun(" b.") == "b.";
    assert Collapse(" b.") == "-b-";
    CollapseSlugChar('a', " b.");
    assert "a b." == ['a'] + " b.";
  }

  /** "A B." becomes "a-b": lower-cased, the inner space replaced and the
      trailing dash stripped. */
  lemma SlugExample()
    ensures Slug("A B.") == "a-b"
  {
    assert LowerAscii("A B.") == "a b.";
    CollapseExample();
    assert "a-b-"[..3] == "a-b";
  }

  // ---------------------------------------------------------------------
  // Identifiers

  /** The base-36 digit for `d`, as `Number.prototype.toString(36)` writes it. */
  function Digit36(d: nat): (c: char)
    requires d < 36
    ensures IsSlugChar(c) && DigitValue(c) == d
    ensures c == '0' <==> d == 0
  {
    if d < 10 then ('0' as int + d) as char else ('a' as int + d - 10) as char
  }

  function DigitValue(c: char): nat {
    if IsDigit(c) then c as int - '0' as int
    else if IsLowerAscii(c) then c as int - 'a' as int + 10
    else 0
  }

  /** `n.toString(36)`: most significant digit first, no leading zero. */
  function ToBase36(n: nat): (r: string)
    ensures |r| >= 1
    ensures forall i :: 0 <= i < |r| ==> IsSlugChar(r[i])
    ensures n > 0 ==> r[0] != '0'
    decreases n
  {
    if n < 36 then [Digit36(n)] else ToBase36(n / 36) + [Digit36(n % 36)]
  }

  /** The number a string of base-36 digits denotes. */
  function FromBase36(s: string): nat
    decreases |s|
  {
    if s == [] then 0 else FromBase36(s[..|s| - 1]) * 36 + DigitValue(s[|s| - 1])
  }

  lemma {:induction false} Base36RoundTrip(n: nat)
    ensures FromBase36(ToBase36(n)) == n
    decreases n
  {
    var r := ToBase36(n);
    if n < 36 {
      assert r[..0] == [];
    } else {
      Base36RoundTrip(n / 36);
      assert r[..|r| - 1] == ToBase36(n / 36);
    }
  }

  /** `generateId`: the slug, a '-', then the timestamp in base 36. The
      timestamp digits hold no '-', so the last '-' separates the two parts
      and the timestamp can be read back. */
  function GenerateId(name: string, now: nat): (id: string)
    ensures |id| > |Slug(name)| + 1
    ensures id[..|Slug(name)|] == Slug(name) && id[|Slug(name)|] == '-'
    ensures forall i :: |Slug(name)| < i < |id| ==> IsSlugChar(id[i])
    ensures FromBase36(id[|Slug(name)| + 1..]) == now
  {
    var slug := Slug(name);
    var id := slug + "-" + ToBase36(now);
    Base36RoundTrip(now);
    assert id[|slug| + 1..] == ToBase36(now);
    id
  }

  // ---------------------------------------------------------------------
  // Trimming

  predicate IsSpace(c: char) {
    c == ' ' || c == '\t' || c == '\n' || c == '\r' || c as int == 11 || c as int == 12
  }

  function TrimStart(s: string): (r: string)
    ensures |r| <= |s| && r == s[|s| - |r|..]
    ensures r == [] || !IsSpace(r[0])
    ensures forall i :: 0 <= i < |s| - |r| ==> IsSpace(s[i])
    decreases |s|
  {
    if s == [] || !IsSpace(s[0]) then s else TrimStart(s[1..])
  }

  function TrimEnd(s: string): (r: string)
    ensures |r| <= |s| && r == s[..|r|]
    ensures r == [] || !IsSpace(r[|r| - 1])
    ensures forall i :: |r| <= i < |s| ==> IsSpace(s[i])
    decreases |s|
  {
    if s == [] || !IsSpace(s[|s| - 1]) then s else TrimEnd(s[..|s| - 1])
  }

  /** `r` is the part of `s` starting at `i`, and everything of `s` around
      it is white space. */
  predicate TrimmedAt(s: string, r: string, i: nat) {
    && i + |r| <= |s|
    && r == s[i..i + |r|]
    && (forall k :: 0 <= k < i ==> IsSpace(s[k]))
    && (forall k :: i + |r| <= k < |s| ==> IsSpace(s[k]))
  }

  /** `String.prototype.trim` for ASCII white space: `r` is a contiguous
      part of `s` that neither starts nor ends with white space, and only
      white space was removed around it. */
  function Trim(s: string): (r: string)
    ensures r == [] || (!IsSpace(r[0]) && !IsSpace(r[|r| - 1]))
    ensures exists i :: TrimmedAt(s, r, i)
  {
    var a := TrimStart(s);
    var r := TrimEnd(a);
    var i := |s| - |a|;
    assert TrimmedAt(s, r, i);
    r
  }

  // ---------------------------------------------------------------------
  // Clients

  /** One ad account of a client; `cppTarget` is absent unless set. */
  datatype AdAccount = AdAccount(fbAdAccountId: string, cocCampaignId: int, cocCampaignName: string, cppTarget: Option<real>)

  datatype Client = Client(
    id: string,
    name: string,
    cocLoginId: string,
    cocPassword: string,
    fbAccessToken: string,
    adAccounts: seq<AdAccount>)

  /** A request body: an empty string stands for a field that is missing or
      empty, `adAccounts` is `None` when missing. */
  datatype ClientInput = ClientInput(
    name: string,
    cocLoginId: string,
    cocPassword: string,
    fbAccessToken: string,
    adAccounts: Option<seq<AdAccount>>)

  datatype AdminError = MissingFields | NotFound

  /** One submitted ad account as stored: strings trimmed, a `cppTarget`
      kept only when it is a non-zero number. */
  function StoredAccount(a: AdAccount): (r: AdAccount)
    ensures r.fbAdAccountId == Trim(a.fbAdAccountId) && r.cocCampaignName == Trim(a.cocCampaignName)
    ensures r.cocCampaignId == a.cocCampaignId
    ensures r.cppTarget.Some? <==> NumTruthy(a.cppTarget)
    ensures r.cppTarget.Some? ==> r.cppTarget == a.cppTarget
  {
    AdAccount(Trim(a.fbAdAccountId), a.cocCampaignId, Trim(a.cocCampaignName),
              if NumTruthy(a.cppTarget) then a.cppTarget else None)
  }

  function StoredAccounts(accounts: seq<AdAccount>): (r: seq<AdAccount>)
    ensures |r| == |accounts|
    ensures forall i :: 0 <= i < |accounts| ==> r[i] == StoredAccount(accounts[i])
  {
    seq(|accounts|, i requires 0 <= i < |accounts| => StoredAccount(accounts[i]))
  }

  /** The four fields an added client must have. */
  predicate HasRequired(input: ClientInput) {
    input.name != "" && input.cocLoginId != "" && input.cocPassword != "" && input.fbAccessToken != ""
  }

  /** The client the add operation creates. */
  function NewClient(input: ClientInput, now: nat): (c: Client)
    ensures c.id == GenerateId(input.name, now)
    ensures c.name == Trim(input.name) && c.cocLoginId == Trim(input.cocLoginId)
    ensures c.cocPassword == Trim(input.cocPassword) && c.fbAccessToken == Trim(input.fbAccessToken)
    ensures input.adAccounts.None? ==> c.adAccounts == []
    ensures input.adAccounts.Some? ==> c.adAccounts == StoredAccounts(input.adAccounts.value)
  {
    Client(GenerateId(input.name, now), Trim(input.name), Trim(input.cocLoginId), Trim(input.cocPassword),
           Trim(input.fbAccessToken), StoredAccounts(input.adAccounts.GetOr([])))
  }

  /** `clients.findIndex(c => c.id === id)`, with `|clients|` for -1. */
  function FindIndex(clients: seq<Client>, id: string): (i: nat)
    ensures i <= |clients|
    ensures forall k :: 0 <= k < i ==> clients[k].id != id
    ensures i < |clients| ==> clients[i].id == id
    decreases |clients|
  {
    if clients == [] then 0
    else if clients[0].id == id then 0
    else 1 + FindIndex(clients[1..], id)
  }

  /** The client list after an add request. */
  function Added(clients: seq<Client>, input: ClientInput, now: nat): (r: Result<seq<Client>, AdminError>)
    ensures r.Err? <==> !HasRequired(input)
    ensures r.Err? ==> r.error == MissingFields
    ensures r.Ok? ==>
      && |r.value| == |clients| + 1
      && r.value[..|clients|] == clients
      && r.value[|clients|] == NewClient(input, now)
  {
    if !HasRequired(input) then Err(MissingFields) else Ok(clients + [NewClient(input, now)])
  }

  /** An update request applied to one client: supplied fields are trimmed
      and replace the old ones, everything else is kept. */
  function Patch(c: Client, input: ClientInput): (p: Client)
    ensures p.id == c.id
    ensures input.name == "" ==> p.name == c.name
    ensures input.cocLoginId == "" ==> p.cocLoginId == c.cocLoginId
    ensures input.cocPassword == "" ==> p.cocPassword == c.cocPassword
    ensures input.fbAccessToken == "" ==> p.fbAccessToken == c.fbAccessToken
    ensures input.adAccounts.None? ==> p.adAccounts == c.adAccounts
    ensures input.name != "" ==> p.name == Trim(input.name)
    ensures input.cocLoginId != "" ==> p.cocLoginId == Trim(input.cocLoginId)
    ensures input.cocPassword != "" ==> p.cocPassword == Trim(input.cocPassword)
    ensures input.fbAccessToken != "" ==> p.fbAccessToken == Trim(input.fbAccessToken)
    ensures input.adAccounts.Some? ==> p.adAccounts == StoredAccounts(input.adAccounts.value)
  {
    Client(
      c.id,
      if input.name != "" then Trim(input.name) else c.name,
      if input.cocLoginId != "" then Trim(input.cocLoginId) else c.cocLoginId,
      if input.cocPassword != "" then Trim(input.cocPassword) else c.cocPassword,
      if input.fbAccessToken != "" then Trim(input.fbAccessToken) else c.fbAccessToken,
      if input.adAccounts.Some? then StoredAccounts(input.adAccounts.value) else c.adAccounts)
  }

  /** The client list after an update request for `id`. */
  function Updated(clients: seq<Client>, id: string, input: ClientInput): (r: Result<seq<Client>, AdminError>)
    ensures r.Err? <==> forall k :: 0 <= k < |clients| ==> clients[k].id != id
    ensures r.Err? ==> r.error == NotFound
    ensures r.Ok? ==>
      var i := FindIndex(clients, id);
      && |r.value| == |clients|
      && r.value[i] == Patch(clients[i], input)
      && forall k :: 0 <= k < |clients| && k != i ==> r.value[k] == clients[k]
  {
    var i := FindIndex(clients, id);
    if i == |clients| then Err(NotFound) else Ok(clients[i := Patch(clients[i], input)])
  }

  /** The client list after a delete request for `id`. */
  function Deleted(clients: seq<Client>, id: string): (r: Result<seq<Client>, AdminError>)
    ensures r.Err? <==> forall k :: 0 <= k < |clients| ==> clients[k].id != id
    ensures r.Err? ==> r.error == NotFound
    ensures r.Ok? ==>
      var i := FindIndex(clients, id);
      && |r.value| == |clients| - 1
      && r.value[..i] == clients[..i]
      && r.value[i..] == clients[i + 1..]
      && multiset(r.value) + multiset{clients[i]} == multiset(clients)
  {
    var i := FindIndex(clients, id);
    if i == |clients| then Err(NotFound)
    else
      assert clients == clients[..i] + [clients[i]] + clients[i + 1..];
      Ok(clients[..i] + clients[i + 1..])
  }

  // ---------------------------------------------------------------------
  // Properties of the list operations

  lemma FindIndexUnique(clients: seq<Client>, id: string, i: nat)
    requires i <= |clients|
    requires forall k :: 0 <= k < i ==> clients[k].id != id
    requires i < |clients| ==> clients[i].id == id
    ensures FindIndex(clients, id) == i
  {
  }

  /** An update keeps every id, so the same client is found again. */
  lemma UpdateKeepsIds(clients: seq<Client>, id: string, input: ClientInput)
    requires Updated(clients, id, input).Ok?
    ensures forall k :: 0 <= k < |clients| ==> Updated(clients, id, input).value[k].id == clients[k].id
    ensures FindIndex(Updated(clients, id, input).value, id) == FindIndex(clients, id)
  {
    var r := Updated(clients, id, input).value;
    FindIndexUnique(r, id, FindIndex(clients, id));
  }

  /** Repeating an update changes nothing more. */
  lemma UpdateIdempotent(clients: seq<Client>, id: string, input: ClientInput)
    requires Updated(clients, id, input).Ok?
    ensures Updated(Updated(clients, id, input).value, id, input) == Updated(clients, id, input)
  {
    var r := Updated(clients, id, input).value;
    var i := FindIndex(clients, id);
    UpdateKeepsIds(clients, id, input);
    assert Patch(r[i], input) == r[i];
    assert r[i := r[i]] == r;
  }

  /** An update that supplies no field leaves the list as it was. */
  lemma UpdateWithNothing(clients: seq<Client>, id: string)
    requires exists k :: 0 <= k < |clients| && clients[k].id == id
    ensures Updated(clients, id, ClientInput("", "", "", "", None)) == Ok(clients)
  {
    var i := FindIndex(clients, id);
    assert Patch(clients[i], ClientInput("", "", "", "", None)) == clients[i];
    assert clients[i := clients[i]] == clients;
  }

  /** Deleting the client just added, when its id was new, restores the
      list. */
  lemma AddThenDelete(clients: seq<Client>, input: ClientInput, now: nat)
    requires HasRequired(input)
    requires forall k :: 0 <= k < |clients| ==> clients[k].id != GenerateId(input.name, now)
    ensures Deleted(Added(clients, input, now).value, GenerateId(input.name, now)) == Ok(clients)
  {
    var c := NewClient(input, now);
    var added := clients + [c];
    assert Added(clients, input, now) == Ok(added);
    FindIndexUnique(added, c.id, |clients|);
    assert added[..|clients|] == clients;
    assert added[|clients| + 1..] == [];
    assert added[..|clients|] + added[|clients| + 1..] == clients;
    assert c.id == GenerateId(input.name, now);
    assert Deleted(added, c.id) == Ok(clients);
  }

  /** When exactly one client has the id, no client with it remains after a
      delete. */
  lemma DeleteRemovesId(clients: seq<Client>, id: string, i: nat)
    requires i < |clients| && clients[i].id == id
    requires forall k :: 0 <= k < |clients| && k != i ==> clients[k].id != id
    ensures Deleted(clients, id).Ok?
    ensures forall k :: 0 <= k < |clients| - 1 ==> Deleted(clients, id).value[k].id != id
  {
    FindIndexUnique(clients, id, i);
    var r := Deleted(clients, id).value;
    forall k | 0 <= k < |clients| - 1
      ensures r[k].id != id
    {
      if k < i {
        assert r[k] == r[..i][k] == clients[..i][k];
      } else {
        assert r[k] == r[i..][k - i] == clients[i + 1..][k - i];
      }
    }
  }

  // ---------------------------------------------------------------------
  // The stored list

  /** The client list the admin handlers edit in place. */
  class ClientStore {
    var clients: seq<Client>

    constructor(initial: seq<Client>)
      ensures clients == initial
    {
      clients := initial;
    }

    /** POST: rejects a request missing a required field, otherwise appends
        the new client. */
    method Add(input: ClientInput, now: nat) returns (outcome: Result<Client, AdminError>)
      modifies this
      ensures outcome.Ok? ==> Added(old(clients), input, now) == Ok(clients) && outcome.value == NewClient(input, now)
      ensures outcome.Err? ==> Added(old(clients), input, now) == Err(outcome.error) && clients == old(clients)
    {
      if input.name == "" || input.cocLoginId == "" || input.cocPassword == "" || input.fbAccessToken == "" {
        return Err(MissingFields);
      }
      var newClient := NewClient(input, now);
      clients := clients + [newClient];
      outcome := Ok(newClient);
    }

    /** PUT: patches the first client with the id, or reports it missing. */
    method Update(id: string, input: ClientInput) returns (outcome: Result<Client, AdminError>)
      modifies this
      ensures outcome.Ok? ==>
        && Updated(old(clients), id, input) == Ok(clients)
        && outcome.value == clients[FindIndex(old(clients), id)]
      ensures outcome.Err? ==> Updated(old(clients), id, input) == Err(outcome.error) && clients == old(clients)
    {
      var idx := FindIndex(clients, id);
      if idx == |clients| {
        return Err(NotFound);
      }
      clients := clients[idx := Patch(clients[idx], input)];
      outcome := Ok(clients[idx]);
    }

    /** DELETE: removes the first client with the id and returns it, or
        reports it missing. */
    method Delete(id: string) returns (outcome: Result<Client, AdminError>)
      modifies this
      ensures outcome.Ok? ==>
        && Deleted(old(clients), id) == Ok(clients)
        && outcome.value == old(clients)[FindIndex(old(clients), id)]
      ensures outcome.Err? ==> Deleted(old(clients), id) == Err(outcome.error) && clients == old(clients)
    {
      var idx := FindIndex(clients, id);
      if idx == |clients| {
        return Err(NotFound);
      }
      var removed := clients[idx];
      clients := clients[..idx] + clients[idx + 1..];
      outcome := Ok(removed);
    }
  }
}
