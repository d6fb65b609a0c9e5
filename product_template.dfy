/** The field-tracking augmenter of `product.template` (models/product_template.py): after the
    platform has set up the product's fields, every stored field that is neither computed
    nor related and is not on a fixed exclusion list is marked for change tracking. */
module ProductTemplate {

  /** The names that never gain tracking from this hook. */
  const ExcludedFields: set<string> :=
    {
      "id", "create_date", "create_uid", "write_date", "write_uid", "__last_update",
      "display_name", "message_ids", "message_follower_ids", "message_partner_ids",
      "message_channel_ids", "message_unread", "message_unread_counter", "message_needaction",
      "message_needaction_counter", "message_has_error", "message_has_error_counter",
      "message_has_sms_error", "message_has_whatsapp_error", "message_attachment_count",
      "website_message_ids", "message_is_follower", "has_message", "activity_ids",
      "activity_state", "activity_user_id", "activity_type_id", "activity_summary",
      "activity_date_deadline", "my_activity_date_deadline", "activity_exception_decoration",
      "activity_exception_icon", "activity_calendar_event_id", "activity_type_icon",
      "qty_available", "virtual_available", "incoming_qty", "outgoing_qty", "forecasted_qty",
      "free_qty", "nbr_moves_in", "nbr_moves_out", "bom_count", "product_variant_count",
      "pricelist_item_count", "product_document_count", "sales_count", "purchased_product_qty",
      "mrp_product_qty", "nbr_reordering_rules", "used_in_bom_count", "reordering_min_qty",
      "reordering_max_qty", "uom_name", "weight_uom_name", "volume_uom_name", "currency_id",
      "cost_currency_id", "tax_string", "product_tooltip", "expense_policy_tooltip",
      "fiscal_country_codes", "can_image_1024_be_zoomed", "has_configurable_attributes",
      "is_product_variant", "has_available_route_ids", "show_on_hand_qty_status_button",
      "show_forecasted_qty_status_button", "visible_expense_policy", "is_kits",
      "route_from_categ_ids", "property_account_expense_id", "property_account_income_id",
      "property_account_creditor_price_difference", "property_stock_inventory",
      "property_stock_production", "cost_method", "valuation", "service_policy",
      "service_to_purchase", "image_1920", "image_1024", "image_512", "image_256", "image_128",
      "product_variant_ids", "attribute_line_ids", "packaging_ids", "seller_ids",
      "variant_seller_ids", "bom_ids", "bom_line_ids", "product_document_ids", "rating_ids",
      "expiration_ids", "valid_product_template_attribute_line_ids"
    }

  /** The `tracking` attribute of a field: off, on, or on with an explicit sequence
      number. */
  datatype Tracking = Untracked | Tracked | TrackedAt(sequence: int)

  /** One field descriptor of the product's registry. Only `tracking` is ever assigned;
      the other attributes are fixed once the platform has set the field up. */
  class Field {
    const name: string
    const computed: bool   // `compute` is set
    const related: bool    // `related` is set
    const stored: bool     // `store`
    var tracking: Tracking

    constructor (name: string, computed: bool, related: bool, stored: bool, tracking: Tracking)
      ensures this.name == name && this.computed == computed && this.related == related
      ensures this.stored == stored && this.tracking == tracking
    {
      this.name := name;
      this.computed := computed;
      this.related := related;
      this.stored := stored;
      this.tracking := tracking;
    }
  }

  /** The condition under which the hook turns tracking on for the field registered as
      `name`. */
  predicate GainsTracking(name: string, f: Field) {
    name !in ExcludedFields && !f.computed && !f.related && f.stored
  }

  /** The tracking a field has after the hook, given the tracking it had before. */
  function TrackingAfterSetup(name: string, f: Field, before: Tracking): (after: Tracking)
    ensures GainsTracking(name, f) ==> after == Tracked
    ensures !GainsTracking(name, f) ==> after == before
    ensures name in ExcludedFields ==> after == before
  {
    if GainsTracking(name, f) then Tracked else before
  }

  /** Applying the hook's rule to its own result changes nothing. */
  lemma TrackingAfterSetupIdempotent(name: string, f: Field, before: Tracking)
    ensures TrackingAfterSetup(name, f, TrackingAfterSetup(name, f, before))
         == TrackingAfterSetup(name, f, before)
  {
  }

  /** The product model with its field registry (`_fields`). */
  class ProductTemplateModel {
    const fieldRegistry: map<string, Field>

    constructor (fieldRegistry: map<string, Field>)
      requires forall n :: n in fieldRegistry ==> fieldRegistry[n].name == n
      ensures this.fieldRegistry == fieldRegistry && Valid()
    {
      this.fieldRegistry := fieldRegistry;
    }

    /** Each field is registered under its own name, so no descriptor is registered twice. */
    ghost predicate Valid() {
      forall n :: n in fieldRegistry ==> fieldRegistry[n].name == n
    }

    /** The tracking loop of `_setup_fields`. The registry is visited in an arbitrary
        order; the outcome is the same for every order. A qualifying field gains tracking,
        replacing any sequence number it had; every other field keeps what it had. */
    method SetupFields()
      requires Valid()
      modifies fieldRegistry.Values
      ensures forall n :: n in fieldRegistry ==>
                fieldRegistry[n].tracking == TrackingAfterSetup(n, fieldRegistry[n], old(fieldRegistry[n].tracking))
    {
      var remaining := fieldRegistry.Keys;
      while remaining != {}
        invariant remaining <= fieldRegistry.Keys
        invariant forall n :: n in fieldRegistry && n !in remaining ==>
                    fieldRegistry[n].tracking == TrackingAfterSetup(n, fieldRegistry[n], old(fieldRegistry[n].tracking))
        invariant forall n :: n in remaining ==> fieldRegistry[n].tracking == old(fieldRegistry[n].tracking)
        decreases remaining
      {
        var name :| name in remaining;
        var field := fieldRegistry[name];
        if name !in ExcludedFields && !field.computed && !field.related && field.stored {
          field.tracking := Tracked;
        }
        remaining := remaining - {name};
      }
    }

    /** Running the loop a second time leaves every field as the first run left it. */
    method SetupFieldsTwice()
      requires Valid()
      modifies fieldRegistry.Values
      ensures forall n :: n in fieldRegistry ==>
                fieldRegistry[n].tracking == TrackingAfterSetup(n, fieldRegistry[n], old(fieldRegistry[n].tracking))
    {
      SetupFields();
      ghost var once := map n | n in fieldRegistry :: fieldRegistry[n].tracking;
      SetupFields();
      assert forall n :: n in fieldRegistry ==> fieldRegistry[n].tracking == once[n];
    }
  }
}
