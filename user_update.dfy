/** The query builder of `PUT /api/users/:id`: it grows the text of an
    `UPDATE users SET ...` statement and its parameter list one supplied
    field at a time, numbering the placeholders with a counter, then cuts
    the trailing `", "` and appends the `WHERE id = $n` clause. */
module UserUpdate {
  import opened Js

  /** The request body; a missing field is `""` (both are falsy and are
      skipped alike). */
  datatype UpdateBody = UpdateBody(username: string, password: string, role: string, status: string)

  /** One `column = $n` assignment together with the value bound to `$n`. */
  datatype Assignment = Assignment(column: string, value: string)

  const Head := "UPDATE users SET "
  const Returning := " RETURNING id, username, role, status"

  /** The assignments the handler emits, in its fixed order username,
      password, role, status; only truthy fields take part, and the
      password is bound hashed (`hash` is `bcrypt.hashSync`). */
  function Assignments(body: UpdateBody, hash: string -> string): seq<Assignment>
  {
    (if body.username != "" then [Assignment("username", body.username)] else [])
    + (if body.password != "" then [Assignment("password_hash", hash(body.password))] else [])
    + (if body.role != "" then [Assignment("role", body.role)] else [])
    + (if body.status != "" then [Assignment("status", body.status)] else [])
  }

  /** `column = $index, ` as the handler appends it. */
  function Clause(a: Assignment, index: nat): string
  {
    a.column + " = $" + NatToString(index) + ", "
  }

  /** The clauses of `asg`, numbered from `first` on. */
  function Clauses(asg: seq<Assignment>, first: nat): string
    decreases |asg|
  {
    if asg == [] then "" else Clause(asg[0], first) + Clauses(asg[1..], first + 1)
  }

  function Values(asg: seq<Assignment>): (r: seq<string>)
    ensures |r| == |asg|
    ensures forall i :: 0 <= i < |asg| ==> r[i] == asg[i].value
  {
    seq(|asg|, i requires 0 <= i < |asg| => asg[i].value)
  }

  /** `s.slice(0, -2)`. */
  function DropLastTwo(s: string): (r: string)
    ensures |s| >= 2 ==> s == r + s[|s| - 2..]
  {
    if |s| >= 2 then s[..|s| - 2] else ""
  }

  /** The statement the handler sends for the assignments `asg` and the
      user id `id`: the query text and its parameter list. */
  function Statement(asg: seq<Assignment>, id: string): (string, seq<string>)
  {
    (DropLastTwo(Head + Clauses(asg, 1)) + " WHERE id = $" + NatToString(|asg| + 1) + Returning,
     Values(asg) + [id])
  }

  lemma {:induction false} ClausesSnoc(asg: seq<Assignment>, a: Assignment, first: nat)
    ensures Clauses(asg + [a], first) == Clauses(asg, first) + Clause(a, first + |asg|)
    decreases |asg|
  {
    if asg != [] {
      assert (asg + [a])[1..] == asg[1..] + [a];
      ClausesSnoc(asg[1..], a, first + 1);
    } else {
      assert Clauses([a], first) == Clause(a, first) + Clauses([], first + 1);
    }
  }

  /** The handler itself: the query and parameters built step by step. */
  method BuildUpdate(id: string, body: UpdateBody, hash: string -> string) returns (query: string, params: seq<string>)
    ensures (query, params) == Statement(Assignments(body, hash), id)
  {
    query := Head;
    params := [];
    var paramIndex := 1;
    ghost var done: seq<Assignment> := [];
    assert query == Head + Clauses(done, 1) && params == Values(done);

    if body.username != "" {
      query, params, paramIndex := AddAssignment(query, params, paramIndex, done, Assignment("username", body.username));
      done := done + [Assignment("username", body.username)];
    }
    assert query == Head + Clauses(done, 1) && params == Values(done) && paramIndex == |done| + 1;
    ghost var afterUsername := done;
    if body.password != "" {
      var passwordHash := hash(body.password);
      query, params, paramIndex := AddAssignment(query, params, paramIndex, done, Assignment("password_hash", passwordHash));
      done := done + [Assignment("password_hash", passwordHash)];
    }
    assert query == Head + Clauses(done, 1) && params == Values(done) && paramIndex == |done| + 1;
    ghost var afterPassword := done;
    if body.role != "" {
      query, params, paramIndex := AddAssignment(query, params, paramIndex, done, Assignment("role", body.role));
      done := done + [Assignment("role", body.role)];
    }
    assert query == Head + Clauses(done, 1) && params == Values(done) && paramIndex == |done| + 1;
    ghost var afterRole := done;
    if body.status != "" {
      query, params, paramIndex := AddAssignment(query, params, paramIndex, done, Assignment("status", body.status));
      done := done + [Assignment("status", body.status)];
    }
    AssignmentsSteps(body, hash, afterUsername, afterPassword, afterRole, done);
    query, params := Finish(query, params, paramIndex, done, id);
  }

  /** The tail of the handler: cut the trailing `", "`, add the `WHERE`
      clause on the next placeholder and bind the user id to it. */
  method Finish(query: string, params: seq<string>, paramIndex: nat, ghost done: seq<Assignment>, id: string)
    returns (query': string, params': seq<string>)
    requires query == Head + Clauses(done, 1) && params == Values(done) && paramIndex == |done| + 1
    ensures (query', params') == Statement(done, id)
  {
    query' := DropLastTwo(query);
    query' := query' + " WHERE id = $" + NatToString(paramIndex) + Returning;
    params' := params + [id];
  }

  /** One `if (field)` block of the handler: append the clause, push the
      value, advance the counter. */
  method AddAssignment(query: string, params: seq<string>, paramIndex: nat, ghost done: seq<Assignment>, a: Assignment)
    returns (query': string, params': seq<string>, paramIndex': nat)
    requires query == Head + Clauses(done, 1) && params == Values(done) && paramIndex == |done| + 1
    ensures query' == Head + Clauses(done + [a], 1)
    ensures params' == Values(done + [a])
    ensures paramIndex' == |done + [a]| + 1
  {
    query' := query + a.column + " = $" + NatToString(paramIndex) + ", ";
    params' := params + [a.value];
    paramIndex' := paramIndex + 1;
    ClausesSnoc(done, a, 1);
    assert Values(done + [a]) == Values(done) + [a.value];
  }

  /** The four conditional blocks together produce `Assignments`. */
  lemma AssignmentsSteps(body: UpdateBody, hash: string -> string,
                         s1: seq<Assignment>, s2: seq<Assignment>, s3: seq<Assignment>, s4: seq<Assignment>)
    requires s1 == if body.username != "" then [Assignment("username", body.username)] else []
    requires s2 == if body.password != "" then s1 + [Assignment("password_hash", hash(body.password))] else s1
    requires s3 == if body.role != "" then s2 + [Assignment("role", body.role)] else s2
    requires s4 == if body.status != "" then s3 + [Assignment("status", body.status)] else s3
    ensures s4 == Assignments(body, hash)
  {
  }

  // ---------------------------------------------------------------------
  // What the statement means

  /** The assignments joined by `", "`, with no trailing separator: the
      SET list a well-formed statement carries. */
  function SetList(asg: seq<Assignment>, first: nat): string
    requires |asg| >= 1
    decreases |asg|
  {
    var head := asg[0].column + " = $" + NatToString(first);
    if |asg| == 1 then head else head + ", " + SetList(asg[1..], first + 1)
  }

  lemma {:induction false} ClausesAreSetList(asg: seq<Assignment>, first: nat)
    requires |asg| >= 1
    ensures Clauses(asg, first) == SetList(asg, first) + ", "
    decreases |asg|
  {
    if |asg| > 1 {
      ClausesAreSetList(asg[1..], first + 1);
    }
  }

  /** With at least one field supplied, the statement is
      `UPDATE users SET c1 = $1, ..., ck = $k WHERE id = $(k+1) ...`, the
      parameters are the k values followed by the id, and placeholder
      `$i` is bound to the value of the i-th assignment. */
  lemma WellFormedWhenSomeField(asg: seq<Assignment>, id: string)
    requires |asg| >= 1
    ensures Statement(asg, id).0 ==
      "UPDATE users SET " + SetList(asg, 1) + " WHERE id = $" + NatToString(|asg| + 1) + Returning
    ensures |Statement(asg, id).1| == |asg| + 1
    ensures Statement(asg, id).1[|asg|] == id
    ensures forall i :: 0 <= i < |asg| ==> Statement(asg, id).1[i] == asg[i].value
  {
    ClausesAreSetList(asg, 1);
    var s := Head + Clauses(asg, 1);
    assert s == Head + SetList(asg, 1) + ", ";
    assert DropLastTwo(s) == Head + SetList(asg, 1);
  }

  /** With no field supplied, `slice(0, -2)` eats the `"T "` of `"SET "`
      and the statement sent is malformed. */
  lemma MalformedWhenNoField(body: UpdateBody, hash: string -> string, id: string)
    requires body.username == "" && body.password == "" && body.role == "" && body.status == ""
    ensures Assignments(body, hash) == []
    ensures Statement(Assignments(body, hash), id) ==
      ("UPDATE users SE" + " WHERE id = $" + "1" + Returning, [id])
  {
    assert Clauses([], 1) == "";
    assert Head + "" == Head;
    assert DropLastTwo(Head) == "UPDATE users SE";
    assert NatToString(1) == "1" by { assert DigitChar(1) == '1'; }
    var asg := Assignments(body, hash);
    assert asg == [];
    assert Values(asg) == [];
    assert Statement(asg, id).0 == DropLastTwo(Head + Clauses(asg, 1)) + " WHERE id = $" + NatToString(1) + Returning;
    assert Statement(asg, id).0 == "UPDATE users SE" + " WHERE id = $" + "1" + Returning;
    assert Statement(asg, id).1 == [id];
  }

  /** A column is assigned exactly when its field is truthy, the columns
      keep the fixed order, and the password is only ever bound hashed. */
  lemma AssignmentsOrder(body: UpdateBody, hash: string -> string)
    ensures var asg := Assignments(body, hash);
      && |asg| == (if body.username != "" then 1 else 0) + (if body.password != "" then 1 else 0)
                 + (if body.role != "" then 1 else 0) + (if body.status != "" then 1 else 0)
      && (Assignment("password_hash", hash(body.password)) in asg) == (body.password != "")
      && (forall i :: 0 <= i < |asg| && asg[i].column == "password_hash" ==> asg[i].value == hash(body.password))
      && (forall i, j :: 0 <= i < j < |asg| ==> Rank(asg[i].column) < Rank(asg[j].column))
  {
  }

  /** Position of a column in the handler's fixed order. */
  function Rank(column: string): nat
  {
    if column == "username" then 0
    else if column == "password_hash" then 1
    else if column == "role" then 2
    else 3
  }
}
