/** The action mappers of lib/config-builder/reference-builder.js
    (`transformPermissionsToDynamoDbActions`,
    `transformPermissionsToSnsActions`): each abstract action of a
    reference's `allows` list adds a fixed group of IAM action strings to an
    insertion-ordered set, and an action outside the five throws. */
module ActionMapper {
  import opened Wrappers
  import opened Descriptors
  import opened OrderedSets
  import opened Manifest

  datatype Service = DynamoDbService | SnsService

  /** The IAM actions one abstract action adds, in the order the source adds
      them; `None` for an action the mapper does not know. */
  function Grants(svc: Service, a: Action): Option<seq<IamAction>> {
    match svc
    case DynamoDbService => (
      match a
      case Create => Some([PutItem])
      case Read => Some([Query, Scan, GetItem])
      case Update => Some([UpdateItem])
      case Delete => Some([DeleteItem])
      case All => Some([Query, Scan, GetItem, PutItem, UpdateItem, DeleteItem])
      case OtherAction(_) => None)
    case SnsService => (
      match a
      case Create => Some([CreateTopic, Publish])
      case Read => Some([Subscribe])
      case Update => Some([Publish, SetTopicAttributes])
      case Delete => Some([DeleteTopic, Unsubscribe])
      case All => Some([CreateTopic, Publish, Subscribe, DeleteTopic, Unsubscribe])
      case OtherAction(_) => None)
  }

  predicate Supported(svc: Service, a: Action) {
    Grants(svc, a).Some?
  }

  const UnsupportedActionText := "Unsupported action type in `allows` definition:"

  /** The error both mappers throw for an unknown action, naming it. */
  function UnsupportedAction(a: Action): Error {
    Error(UnsupportedActionText + a.Name())
  }

  /** Some action of `permissions` grants `x`. */
  predicate GrantedBy(svc: Service, permissions: seq<Action>, x: IamAction) {
    exists i :: 0 <= i < |permissions| && Supported(svc, permissions[i]) && x in Grants(svc, permissions[i]).value
  }

  /** The mapper's loop from `acc` on: each action of `permissions`, in
      order, adds its IAM actions to the ordered set `acc`; the first unknown
      action stops the loop with its error. */
  function AddGrants(svc: Service, acc: seq<IamAction>, permissions: seq<Action>): Result<seq<IamAction>>
    decreases |permissions|
  {
    if |permissions| == 0 then Ok(acc)
    else
      match Grants(svc, permissions[0])
      case None => Err(UnsupportedAction(permissions[0]))
      case Some(g) => AddGrants(svc, AddAll(acc, g), permissions[1..])
  }

  /** The loop fails exactly when some action is unknown, with the error of
      the first one. */
  lemma {:induction false} AddGrantsOutcome(svc: Service, acc: seq<IamAction>, permissions: seq<Action>)
    ensures AddGrants(svc, acc, permissions).Ok? <==>
            forall i :: 0 <= i < |permissions| ==> Supported(svc, permissions[i])
    ensures AddGrants(svc, acc, permissions).Err? ==>
            exists i :: 0 <= i < |permissions| && !Supported(svc, permissions[i])
                        && AddGrants(svc, acc, permissions).error == UnsupportedAction(permissions[i])
                        && forall j :: 0 <= j < i ==> Supported(svc, permissions[j])
    decreases |permissions|
  {
    if |permissions| > 0 {
      var rest := permissions[1..];
      if Supported(svc, permissions[0]) {
        var g := Grants(svc, permissions[0]).value;
        AddGrantsOutcome(svc, AddAll(acc, g), rest);
        var r := AddGrants(svc, AddAll(acc, g), rest);
        assert r == AddGrants(svc, acc, permissions);
        SupportedTail(svc, permissions);
        if r.Err? {
          FirstUnsupportedTail(svc, permissions, r.error);
        }
      } else {
        assert !Supported(svc, permissions[0]);
      }
    }
  }

  /** With a known first action, all actions are known iff the rest are. */
  lemma SupportedTail(svc: Service, permissions: seq<Action>)
    requires |permissions| > 0 && Supported(svc, permissions[0])
    ensures (forall i :: 0 <= i < |permissions| ==> Supported(svc, permissions[i])) <==>
            (forall i :: 0 <= i < |permissions[1..]| ==> Supported(svc, permissions[1..][i]))
  {
    assert forall i :: 0 <= i < |permissions[1..]| ==> permissions[1..][i] == permissions[i + 1];
  }

  /** With a known first action, the first unknown action of the rest is
      the first unknown action of the whole list. */
  lemma FirstUnsupportedTail(svc: Service, permissions: seq<Action>, e: Error)
    requires |permissions| > 0 && Supported(svc, permissions[0])
    requires exists i :: 0 <= i < |permissions[1..]| && !Supported(svc, permissions[1..][i])
                         && e == UnsupportedAction(permissions[1..][i])
                         && forall j :: 0 <= j < i ==> Supported(svc, permissions[1..][j])
    ensures exists i :: 0 <= i < |permissions| && !Supported(svc, permissions[i])
                        && e == UnsupportedAction(permissions[i])
                        && forall j :: 0 <= j < i ==> Supported(svc, permissions[j])
  {
    var rest := permissions[1..];
    var i :| 0 <= i < |rest| && !Supported(svc, rest[i]) && e == UnsupportedAction(rest[i])
             && forall j :: 0 <= j < i ==> Supported(svc, rest[j]);
    assert rest[i] == permissions[i + 1];
    forall j | 0 <= j < i + 1 ensures Supported(svc, permissions[j]) {
      if j > 0 { assert permissions[j] == rest[j - 1]; }
    }
  }

  /** A successful loop keeps the set free of duplicates. */
  lemma {:induction false} AddGrantsDistinct(svc: Service, acc: seq<IamAction>, permissions: seq<Action>)
    requires NoDuplicates(acc)
    ensures AddGrants(svc, acc, permissions).Ok? ==> NoDuplicates(AddGrants(svc, acc, permissions).value)
    decreases |permissions|
  {
    if |permissions| > 0 && Supported(svc, permissions[0]) {
      var g := Grants(svc, permissions[0]).value;
      AddGrantsDistinct(svc, AddAll(acc, g), permissions[1..]);
    }
  }

  /** A successful loop keeps what `acc` held and adds every granted IAM
      action and nothing else. */
  lemma {:induction false} AddGrantsContents(svc: Service, acc: seq<IamAction>, permissions: seq<Action>)
    ensures AddGrants(svc, acc, permissions).Ok? ==>
            forall x :: x in AddGrants(svc, acc, permissions).value <==> x in acc || GrantedBy(svc, permissions, x)
    decreases |permissions|
  {
    if |permissions| > 0 && Supported(svc, permissions[0]) {
      var rest := permissions[1..];
      var g := Grants(svc, permissions[0]).value;
      AddGrantsContents(svc, AddAll(acc, g), rest);
      var r := AddGrants(svc, AddAll(acc, g), rest);
      assert r == AddGrants(svc, acc, permissions);
      if r.Ok? {
        forall x ensures GrantedBy(svc, permissions, x) <==> x in g || GrantedBy(svc, rest, x) {
          if GrantedBy(svc, rest, x) {
            var i :| 0 <= i < |rest| && Supported(svc, rest[i]) && x in Grants(svc, rest[i]).value;
            assert permissions[i + 1] == rest[i];
          }
          if GrantedBy(svc, permissions, x) && x !in g {
            var i :| 0 <= i < |permissions| && Supported(svc, permissions[i]) && x in Grants(svc, permissions[i]).value;
            assert i != 0 && rest[i - 1] == permissions[i];
          }
          if x in g {
            assert Supported(svc, permissions[0]) && x in Grants(svc, permissions[0]).value;
          }
        }
      }
    }
  }

  /** What a mapper returns for `permissions`: every granted IAM action
      once, and nothing else, or the error for the first unknown action. */
  function ActionsFor(svc: Service, permissions: seq<Action>): (r: Result<seq<IamAction>>)
    ensures r.Ok? <==> forall i :: 0 <= i < |permissions| ==> Supported(svc, permissions[i])
    ensures r.Err? ==> exists i :: 0 <= i < |permissions| && !Supported(svc, permissions[i])
                                   && r.error == UnsupportedAction(permissions[i])
                                   && forall j :: 0 <= j < i ==> Supported(svc, permissions[j])
    ensures r.Ok? ==> NoDuplicates(r.value)
    ensures r.Ok? ==> forall x :: x in r.value <==> GrantedBy(svc, permissions, x)
  {
    AddGrantsOutcome(svc, [], permissions);
    AddGrantsDistinct(svc, [], permissions);
    AddGrantsContents(svc, [], permissions);
    AddGrants(svc, [], permissions)
  }

  /** The loop of both mappers: for each action of `permissions`, add its
      IAM actions to the set, or throw for an unknown action. */
  method TransformPermissions(svc: Service, permissions: seq<Action>) returns (r: Result<seq<IamAction>>)
    ensures r == ActionsFor(svc, permissions)
  {
    var actionSet: seq<IamAction> := [];
    for i := 0 to |permissions|
      invariant AddGrants(svc, actionSet, permissions[i..]) == ActionsFor(svc, permissions)
    {
      assert permissions[i..][1..] == permissions[i + 1..];
      var grants := Grants(svc, permissions[i]);
      if grants.None? {
        return Err(UnsupportedAction(permissions[i]));
      }
      actionSet := AddAll(actionSet, grants.value);
    }
    r := Ok(actionSet);
  }

  /** One turn of the loop: a supported first action adds its grants. */
  lemma AddGrantsStep(svc: Service, acc: seq<IamAction>, permissions: seq<Action>)
    requires |permissions| > 0 && Supported(svc, permissions[0])
    ensures AddGrants(svc, acc, permissions) ==
            AddGrants(svc, AddAll(acc, Grants(svc, permissions[0]).value), permissions[1..])
  {
  }

  /** DynamoDB `*` alone grants all six item and query actions. */
  lemma DynamoDbAllGrants()
    ensures ActionsFor(DynamoDbService, [All]) == Ok([Query, Scan, GetItem, PutItem, UpdateItem, DeleteItem])
  {
    var six := [Query, Scan, GetItem, PutItem, UpdateItem, DeleteItem];
    assert Grants(DynamoDbService, All).value == six;
    AddAllFresh([], six);
    assert [] + six == six;
    AddGrantsStep(DynamoDbService, [], [All]);
    assert [All][1..] == [];
  }

  /** Every action DynamoDB knows grants a part of what `*` grants. */
  lemma DynamoDbAllCovers(a: Action, x: IamAction)
    requires Supported(DynamoDbService, a) && x in Grants(DynamoDbService, a).value
    ensures x in Grants(DynamoDbService, All).value
  {
  }

  /** For DynamoDB, `*` subsumes every other action: adding it to any valid
      `allows` list yields, as a set, what `*` alone yields. */
  lemma DynamoDbAllSubsumes(permissions: seq<Action>)
    requires ActionsFor(DynamoDbService, permissions).Ok?
    ensures ActionsFor(DynamoDbService, permissions + [All]).Ok?
    ensures forall x :: x in ActionsFor(DynamoDbService, permissions + [All]).value <==>
                        x in ActionsFor(DynamoDbService, [All]).value
  {
    var p := permissions + [All];
    assert forall i :: 0 <= i < |permissions| ==> p[i] == permissions[i];
    assert p[|permissions|] == All;
    assert [All][0] == All;
    forall x ensures GrantedBy(DynamoDbService, p, x) <==> GrantedBy(DynamoDbService, [All], x) {
      if GrantedBy(DynamoDbService, p, x) {
        var i :| 0 <= i < |p| && Supported(DynamoDbService, p[i]) && x in Grants(DynamoDbService, p[i]).value;
        DynamoDbAllCovers(p[i], x);
      }
    }
  }

  /** For DynamoDB, `*` grants, as a set, exactly what create, read, update
      and delete grant together: any valid `allows` list naming those four
      yields `*`'s set. */
  lemma DynamoDbAllIsUnion(permissions: seq<Action>)
    requires Create in permissions && Read in permissions && Update in permissions && Delete in permissions
    requires ActionsFor(DynamoDbService, permissions).Ok?
    ensures forall x :: x in ActionsFor(DynamoDbService, [All]).value <==>
                        x in ActionsFor(DynamoDbService, permissions).value
  {
    var all := [All];
    assert all[0] == All && Supported(DynamoDbService, all[0]);
    forall x ensures GrantedBy(DynamoDbService, all, x) <==> GrantedBy(DynamoDbService, permissions, x) {
      if GrantedBy(DynamoDbService, permissions, x) {
        var i :| 0 <= i < |permissions| && Supported(DynamoDbService, permissions[i])
                 && x in Grants(DynamoDbService, permissions[i]).value;
        DynamoDbAllCovers(permissions[i], x);
      }
      if x in Grants(DynamoDbService, All).value {
        ItemActionsGrant(permissions, x);
      }
    }
  }

  /** Each of `*`'s six DynamoDB actions is granted by one of create, read,
      update and delete. */
  lemma ItemActionsGrant(permissions: seq<Action>, x: IamAction)
    requires Create in permissions && Read in permissions && Update in permissions && Delete in permissions
    requires x in Grants(DynamoDbService, All).value
    ensures GrantedBy(DynamoDbService, permissions, x)
  {
    var a := if x in [Query, Scan, GetItem] then Read else if x == PutItem then Create
             else if x == UpdateItem then Update else Delete;
    var i :| 0 <= i < |permissions| && permissions[i] == a;
    assert x in Grants(DynamoDbService, permissions[i]).value;
  }

  /** The four item actions alone are a valid `allows` list. */
  lemma ItemActionsSupported()
    ensures ActionsFor(DynamoDbService, [Create, Read, Update, Delete]).Ok?
  {
    var items := [Create, Read, Update, Delete];
    assert forall i :: 0 <= i < |items| ==> Supported(DynamoDbService, items[i]);
  }

  /** SNS `*` alone grants five actions. */
  lemma SnsAllGrants()
    ensures ActionsFor(SnsService, [All]) == Ok([CreateTopic, Publish, Subscribe, DeleteTopic, Unsubscribe])
  {
    var five := [CreateTopic, Publish, Subscribe, DeleteTopic, Unsubscribe];
    assert Grants(SnsService, All).value == five;
    AddAllFresh([], five);
    assert [] + five == five;
    AddGrantsStep(SnsService, [], [All]);
    assert [All][1..] == [];
  }

  /** For SNS, `*` does not subsume update: a valid permission list grants
      `SetTopicAttributes` exactly when it holds update, so `*` alone
      leaves it out. */
  lemma SnsAttributesOnlyByUpdate(permissions: seq<Action>)
    requires ActionsFor(SnsService, permissions).Ok?
    ensures SetTopicAttributes in ActionsFor(SnsService, permissions).value <==> Update in permissions
  {
    if Update in permissions {
      var i :| 0 <= i < |permissions| && permissions[i] == Update;
      assert SetTopicAttributes in Grants(SnsService, permissions[i]).value;
    } else {
      forall i | 0 <= i < |permissions| && Supported(SnsService, permissions[i])
        ensures SetTopicAttributes !in Grants(SnsService, permissions[i]).value
      {
        assert permissions[i] != Update;
      }
    }
  }

  /** Overlapping grants collapse: Create and Update both grant `Publish`,
      which the result holds once, at its first place. */
  lemma SnsOverlapCollapses()
    ensures ActionsFor(SnsService, [Create, Update]) == Ok([CreateTopic, Publish, SetTopicAttributes])
  {
    SnsCreateThenUpdate();
  }

  /** The loop's two turns for `[create, update]`. */
  lemma SnsCreateThenUpdate()
    ensures AddGrants(SnsService, [], [Create, Update]) == Ok([CreateTopic, Publish, SetTopicAttributes])
  {
    var first := [CreateTopic, Publish];
    AddGrantsStep(SnsService, [], [Create, Update]);
    assert [Create, Update][1..] == [Update];
    AddAllFresh([], first);
    assert [] + first == first;
    AddGrantsStep(SnsService, first, [Update]);
    assert [Update][1..] == [];
    PublishAddedOnce();
  }

  /** Update's grants added after create's: `Publish` is already there. */
  lemma PublishAddedOnce()
    ensures AddAll([CreateTopic, Publish], [Publish, SetTopicAttributes]) == [CreateTopic, Publish, SetTopicAttributes]
  {
    var first := [CreateTopic, Publish];
    AddAllConcat(first, [Publish], [SetTopicAttributes]);
    assert [Publish][1..] == [] && Add(first, Publish) == first;
    AddAllFresh(first, [SetTopicAttributes]);
    assert first + [SetTopicAttributes] == [CreateTopic, Publish, SetTopicAttributes];
    assert [Publish] + [SetTopicAttributes] == [Publish, SetTopicAttributes];
  }
}
