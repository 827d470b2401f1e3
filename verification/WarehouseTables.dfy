// The rows of wms_inventory and wms_ops that allocation, picking, unloading and shipping work on.
module WarehouseTables {
  import opened Basics

  type Product = nat
  type Sku = nat
  type Order = nat
  type Bin = nat
  type Section = nat
  type Destination = nat
  type Operator = nat
  type ActionId = nat

  datatype ProductStatus = RECEIVED | STORED | ALLOCATED | ASSEMBLED | READY_TO_SHIP | SHIPPED

  datatype ProductRow = ProductRow(sku: Sku, status: ProductStatus, order: Option<Order>, bin: Option<Bin>)

  datatype OrderStatus = NEW | ORDER_ALLOCATED | ORDER_ASSEMBLED | PARTIALLY_SHIPPED | ORDER_SHIPPED

  datatype Line = Line(sku: Sku, qty: nat)

  datatype OrderRow = OrderRow(status: OrderStatus, destination: Destination, lines: seq<Line>)

  // done: status DONE, by operator; otherwise PENDING. action: the unload that carried it away.
  datatype Task = Task(order: Order, product: Product, sku: Sku, fromBin: Bin, section: Section, destination: Destination,
                       done: bool, operator: Option<Operator>, action: Option<ActionId>)

  // arrival and queue: the created_at order of products and of orders.
  datatype Db = Db(products: map<Product, ProductRow>, arrival: seq<Product>, orders: map<Order, OrderRow>, queue: seq<Order>, tasks: seq<Task>)

  ghost predicate WellOrdered(db: Db) {
    && Distinct(db.arrival) && (forall p :: p in db.arrival <==> p in db.products)
    && Distinct(db.queue) && (forall o :: o in db.queue <==> o in db.orders)
  }

  function Stage(status: ProductStatus): nat {
    match status
    case RECEIVED => 0
    case STORED => 1
    case ALLOCATED => 2
    case ASSEMBLED => 3
    case READY_TO_SHIP => 4
    case SHIPPED => 5
  }

  // A task is as far as its product.
  predicate TaskFits(row: ProductRow, t: Task) {
    && row.order == Some(t.order) && row.sku == t.sku
    && match row.status
       case ALLOCATED => !t.done && t.action == None
       case ASSEMBLED => t.done && t.operator.Some? && t.action == None
       case READY_TO_SHIP => t.done && t.action.Some?
       case SHIPPED => t.done && t.action.Some?
       case _ => false
  }

  ghost predicate HasTask(db: Db, p: Product) {
    exists i :: 0 <= i < |db.tasks| && db.tasks[i].product == p
  }

  // Every product from ALLOCATED on has exactly one task: PENDING while it is ALLOCATED, DONE and not
  // carried away while it is ASSEMBLED. No other product has any.
  ghost predicate TasksMatch(db: Db) {
    && (forall i :: 0 <= i < |db.tasks| ==> db.tasks[i].product in db.products && TaskFits(db.products[db.tasks[i].product], db.tasks[i]))
    && (forall i, j :: 0 <= i < j < |db.tasks| ==> db.tasks[i].product != db.tasks[j].product)
    && (forall p :: p in db.products && Stage(db.products[p].status) >= 2 ==> HasTask(db, p))
  }
}
