/** The Cart entity: the one cart of a user, holding its line items. */
module Carts {
  import opened Common
  import opened CartItems

  class Cart {
    /** Generated identity. */
    const id: CartId
    /** Owning user: a unique, non-null column, so one cart per user. */
    const user: UserName
    var items: seq<CartItem>
    var createdAt: Timestamp
    /** Null until the first update. */
    var updatedAt: Option<Timestamp>

    ghost predicate Valid()
      reads this
    {
      WellFormed(items)
    }

    /** `Cart.builder().user(user).createdAt(now).build()`: the builder's
        default item set is empty and no update time is set yet. */
    constructor (id: CartId, user: UserName, now: Timestamp)
      ensures this.id == id && this.user == user
      ensures items == [] && createdAt == now && updatedAt == None
      ensures Valid()
    {
      this.id := id;
      this.user := user;
      items := [];
      createdAt := now;
      updatedAt := None;
    }

    /** The `@PrePersist` hook: stamps the creation time. The item set can
        never be null here, so its null-guard leaves the items as they are. */
    method OnCreate(now: Timestamp)
      modifies this
      ensures createdAt == now
      ensures items == old(items) && updatedAt == old(updatedAt)
    {
      createdAt := now;
    }

    /** Emptying the item set (orphan removal deletes the lines); the
        timestamps are left as they are. */
    method Clear()
      modifies this
      ensures items == [] && Valid()
      ensures createdAt == old(createdAt) && updatedAt == old(updatedAt)
    {
      items := [];
    }

    /** The `@PreUpdate` hook: refreshes the update time. */
    method OnUpdate(now: Timestamp)
      modifies this
      ensures updatedAt == Some(now)
      ensures items == old(items) && createdAt == old(createdAt)
    {
      updatedAt := Some(now);
    }
  }
}
