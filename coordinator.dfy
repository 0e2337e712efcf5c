/**
 * The coordinator graph: every coordinator owns an ordered list of child
 * coordinators and shares a navigation controller; a child flow is launched
 * by registering it with a parent and then starting it, and it is detached
 * again with `ChildDidFinish`, which matches by object identity.
 */
module Coordinators {
  import opened Wrappers
  import opened Domain
  import opened ChildList

  /** The shared navigation stack; only its identity matters to the core. */
  class NavigationController {
    constructor ()
    {
    }
  }

  /** Which concrete coordinator an instance is. */
  datatype Kind = CustomLists | CustomListDetail | OtherFlow

  /**
   * A node of the coordinator graph. `childCoordinators` and
   * `navigationController` are the protocol's own state; `parentCoordinator`
   * (a non-owning back reference) and `customList` are stored properties of
   * the custom-lists and custom-list-detail coordinators.
   */
  class Coordinator {
    const kind: Kind
    var childCoordinators: seq<Coordinator>
    var navigationController: NavigationController
    var parentCoordinator: Coordinator?
    var customList: Option<List>
    /** Set once `Start` has run, i.e. once the flow may navigate; a marker of the model only. */
    ghost var started: bool

    constructor (kind: Kind, navigationController: NavigationController)
      ensures this.kind == kind && this.navigationController == navigationController
      ensures childCoordinators == [] && parentCoordinator == null
      ensures customList == None && !started
    {
      this.kind := kind;
      this.navigationController := navigationController;
      childCoordinators := [];
      parentCoordinator := null;
      customList := None;
      started := false;
    }

    /** A coordinator with a parent is owned by it: it sits in the parent's child list. */
    ghost predicate Registered()
      reads this, parentCoordinator
    {
      parentCoordinator != null ==> this in parentCoordinator.childCoordinators
    }

    /**
     * Starting a flow: a child may only navigate once it is reachable from
     * its parent. What the screen itself shows is not modelled.
     */
    method Start()
      requires Registered()
      modifies this`started
      ensures started
    {
      started := true;
    }

    /**
     * Detaches a finished child: walks the children in order and removes
     * the first one that is the same object as `child`, then stops. A child
     * that is not there leaves the list as it was.
     */
    method ChildDidFinish(child: Coordinator)
      modifies this`childCoordinators
      ensures childCoordinators == RemoveFirst(old(childCoordinators), child)
      ensures navigationController == old(navigationController)
      ensures parentCoordinator == old(parentCoordinator)
    {
      ghost var children := childCoordinators;
      var index := 0;
      while index < |childCoordinators|
        invariant 0 <= index <= |childCoordinators|
        invariant childCoordinators == children
        invariant child !in children[..index]
      {
        if childCoordinators[index] == child {
          assert FirstIndex(children, child) == index;
          RemoveFirstSplices(children, child);
          childCoordinators := childCoordinators[..index] + childCoordinators[index + 1..];
          break;
        }
        index := index + 1;
      }
      assert children[..|children|] == children;
      if child !in children {
        RemoveFirstAbsent(children, child);
      }
    }

    /**
     * Launches the detail flow of `customList`: a new custom-list-detail
     * coordinator on the same navigation controller, whose parent is this
     * coordinator's parent, appended to that parent's children and then
     * started. The new coordinator is returned so that callers can name it.
     */
    method ShowDetail(customList: List) returns (coordinator: Coordinator)
      requires kind == CustomLists
      requires parentCoordinator != null
      modifies parentCoordinator`childCoordinators
      ensures fresh(coordinator)
      ensures coordinator.kind == CustomListDetail
      ensures coordinator.navigationController == navigationController
      ensures coordinator.customList == Some(customList)
      ensures coordinator.parentCoordinator == parentCoordinator
      ensures coordinator.childCoordinators == []
      ensures parentCoordinator.childCoordinators == old(parentCoordinator.childCoordinators) + [coordinator]
      ensures coordinator.Registered() && coordinator.started
      ensures parentCoordinator != this ==> childCoordinators == old(childCoordinators)
    {
      coordinator := new Coordinator(CustomListDetail, navigationController);
      coordinator.customList := Some(customList);
      coordinator.parentCoordinator := parentCoordinator;
      parentCoordinator.childCoordinators := parentCoordinator.childCoordinators + [coordinator];
      coordinator.Start();
    }
  }

  /**
   * The detail flow's life cycle seen from the parent: launching it from
   * the custom-lists coordinator `lists` and then reporting it finished
   * leaves the parent's children as they were.
   */
  method ShowDetailThenFinish(lists: Coordinator, customList: List) returns (coordinator: Coordinator)
    requires lists.kind == CustomLists
    requires lists.parentCoordinator != null
    modifies lists.parentCoordinator`childCoordinators
    ensures coordinator.started && coordinator.customList == Some(customList)
    ensures lists.parentCoordinator.childCoordinators == old(lists.parentCoordinator.childCoordinators)
  {
    var parent := lists.parentCoordinator;
    ghost var before := parent.childCoordinators;
    coordinator := lists.ShowDetail(customList);
    RemoveFirstUndoesAppend(before, coordinator);
    parent.ChildDidFinish(coordinator);
  }

  /**
   * Two detail flows opened on the same list are equal field by field but
   * are different objects; finishing the first removes it alone and leaves
   * its look-alike in place.
   */
  method FinishOneOfTwoLookAlikes(list: List)
    returns (account: Coordinator, lists: Coordinator, first: Coordinator, second: Coordinator)
    ensures first != second
    ensures first.kind == second.kind && first.customList == second.customList
    ensures first.navigationController == second.navigationController
    ensures first.parentCoordinator == second.parentCoordinator == account
    ensures first.childCoordinators == second.childCoordinators == []
    ensures account.childCoordinators == [lists, second]
  {
    var navigationController := new NavigationController();
    account := new Coordinator(OtherFlow, navigationController);
    lists := new Coordinator(CustomLists, navigationController);
    lists.parentCoordinator := account;
    account.childCoordinators := [lists];
    first := lists.ShowDetail(list);
    second := lists.ShowDetail(list);
    account.ChildDidFinish(first);
    assert RemoveFirst([lists, first, second], first) == [lists] + RemoveFirst([first, second], first);
  }
}
