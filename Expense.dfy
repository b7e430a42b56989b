/**
 * One recorded credit-card expense. The Java class is a mutable bean: five
 * fields, a no-argument constructor for deserialisers, a four-argument
 * constructor that assigns a fresh identifier, and a getter and a setter per
 * field. String fields may be `null` in Java, so they are `Option<string>`
 * here; the `double` amount is a whole number of cents.
 */
module Expenses {
  import opened Wrappers

  class Expense {
    var id: Option<string>
    var description: Option<string>
    var amount: int
    var date: Option<string>
    var billingMonth: Option<string>

    /** `new Expense()`: every reference field is `null`, the amount is zero. */
    constructor Empty()
      ensures id == None && description == None && amount == 0
      ensures date == None && billingMonth == None
    {
      id, description, amount, date, billingMonth := None, None, 0, None, None;
    }

    /**
     * `new Expense(description, amount, date, billingMonth)`. The identifier
     * Java draws from `UUID.randomUUID()` is the parameter `freshId`; it is set
     * whatever the other arguments are, so a constructed expense always has one.
     */
    constructor (freshId: string, description: Option<string>, amount: int,
                 date: Option<string>, billingMonth: Option<string>)
      ensures id == Some(freshId)
      ensures this.description == description && this.amount == amount
      ensures this.date == date && this.billingMonth == billingMonth
    {
      this.id := Some(freshId);
      this.description := description;
      this.amount := amount;
      this.date := date;
      this.billingMonth := billingMonth;
    }

    // Getters: none has a modifies clause, so none changes any object.

    method GetId() returns (r: Option<string>)
      ensures r == id
    {
      r := id;
    }

    method GetDescription() returns (r: Option<string>)
      ensures r == description
    {
      r := description;
    }

    method GetAmount() returns (r: int)
      ensures r == amount
    {
      r := amount;
    }

    method GetDate() returns (r: Option<string>)
      ensures r == date
    {
      r := date;
    }

    method GetBillingMonth() returns (r: Option<string>)
      ensures r == billingMonth
    {
      r := billingMonth;
    }

    // Setters: each assigns its own field and leaves the other four as they were.

    method SetId(v: Option<string>)
      modifies this
      ensures id == v
      ensures description == old(description) && amount == old(amount)
      ensures date == old(date) && billingMonth == old(billingMonth)
    {
      id := v;
    }

    method SetDescription(v: Option<string>)
      modifies this
      ensures description == v
      ensures id == old(id) && amount == old(amount)
      ensures date == old(date) && billingMonth == old(billingMonth)
    {
      description := v;
    }

    method SetAmount(v: int)
      modifies this
      ensures amount == v
      ensures id == old(id) && description == old(description)
      ensures date == old(date) && billingMonth == old(billingMonth)
    {
      amount := v;
    }

    method SetDate(v: Option<string>)
      modifies this
      ensures date == v
      ensures id == old(id) && description == old(description)
      ensures amount == old(amount) && billingMonth == old(billingMonth)
    {
      date := v;
    }

    method SetBillingMonth(v: Option<string>)
      modifies this
      ensures billingMonth == v
      ensures id == old(id) && description == old(description)
      ensures amount == old(amount) && date == old(date)
    {
      billingMonth := v;
    }
  }
}
