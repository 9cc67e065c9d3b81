/**
 * controllers/properties.controllers.js: the listing handler and the
 * listing-by-type handler, over the property tables and the listing query.
 */
module PropertiesControllers {
  import opened Js
  import opened Schema
  import opened Http
  import opened Utils
  import opened PropertiesModel

  /** `(minprice && isNaN(minprice)) || (maxprice && isNaN(maxprice))`. */
  predicate BadPrices(req: ListingRequest) {
    (Truthy(req.minprice) && !IsNumeric(req.minprice.value)) ||
    (Truthy(req.maxprice) && !IsNumeric(req.maxprice.value))
  }

  const BadPricesMsg: string := "Please use numbers for minprice and maxprice"
  const NoPropertiesFound: JsError := StatusError(404, "No properties found with the provided criteria.")

  /** The catch block of getAllProperties: a 404 is answered here, anything else goes to next(err). */
  function CatchListing(err: JsError): (o: Outcome)
    ensures err.status == Some(404) ==> o == Reply(404, OrElse(err.msg, "No properties found."))
    ensures err.status != Some(404) ==> o == Forward(err)
  {
    if err.status == Some(404) then Reply(404, OrElse(err.msg, "No properties found.")) else Forward(err)
  }

  /** `if (property_type) await checkExists("properties", "property_type", property_type)`. */
  function CheckListingType(properties: seq<Property>, req: ListingRequest): Result<bool> {
    if Truthy(req.property_type) then CheckExists(PropertiesTable(properties), "property_type", req.property_type.value)
    else Ok(true)
  }

  /** getAllProperties after its checks: the listing, or the 404 for an empty one. */
  function AnswerListing(req: ListingRequest, propertyTypes: seq<PropertyType>,
                         execute: Query -> Result<seq<JsObject>>): Outcome {
    match ListingResult(req, propertyTypes, execute)
    case Err(e) => CatchListing(e)
    case Ok(found) =>
      if |found| == 0 then CatchListing(NoPropertiesFound) else Respond(Response(200, Properties(found)))
  }

  /**
   * getAllProperties. It answers 200 only with a non-empty listing, 400 only
   * for bad prices and otherwise 404, and passes on nothing but a listing
   * rejection whose status is not 404, such as a database error.
   */
  function GetAllProperties(req: ListingRequest, properties: seq<Property>, propertyTypes: seq<PropertyType>,
                            execute: Query -> Result<seq<JsObject>>): (o: Outcome)
    ensures BadPrices(req) ==> o == Reply(400, BadPricesMsg)
    ensures o.Respond? ==> o.response.status in {200, 400, 404}
    ensures o.Respond? && o.response.status == 400 ==> BadPrices(req)
    ensures o.Respond? && o.response.status == 200 ==>
              !BadPrices(req) && CheckListingType(properties, req).Ok? && o.response.body.Properties? &&
              ListingResult(req, propertyTypes, execute) == Ok(o.response.body.properties) &&
              |o.response.body.properties| > 0
    ensures o.Forward? ==>
              !BadPrices(req) && CheckListingType(properties, req).Ok? &&
              ListingResult(req, propertyTypes, execute) == Err(o.error) && o.error.status != Some(404)
  {
    if BadPrices(req) then Reply(400, BadPricesMsg)
    else match CheckListingType(properties, req)
      case Err(e) => CatchListing(e)
      case Ok(_) => AnswerListing(req, propertyTypes, execute)
  }

  /** A non-numeric price is refused with 400 before anything is looked up. */
  lemma BadPricesRefusedFirst(req: ListingRequest, properties: seq<Property>, propertyTypes: seq<PropertyType>,
                              execute: Query -> Result<seq<JsObject>>)
    requires BadPrices(req)
    ensures GetAllProperties(req, properties, propertyTypes, execute) == Reply(400, BadPricesMsg)
  {
  }

  /**
   * A type that no property has is answered 404 "property_type not found",
   * whatever the listing query would return.
   */
  lemma UnusedTypeIs404(req: ListingRequest, properties: seq<Property>, propertyTypes: seq<PropertyType>,
                        execute: Query -> Result<seq<JsObject>>)
    requires !BadPrices(req) && Truthy(req.property_type)
    requires forall i :: 0 <= i < |properties| ==> !EqualsIgnoringCase(properties[i].property_type, req.property_type.value)
    ensures GetAllProperties(req, properties, propertyTypes, execute) == Reply(404, "property_type" + " not found")
  {
    UnusedTypeNotFound(properties, req.property_type.value);
  }

  lemma UnusedTypeNotFound(properties: seq<Property>, t: string)
    requires forall i :: 0 <= i < |properties| ==> !EqualsIgnoringCase(properties[i].property_type, t)
    ensures CheckExists(PropertiesTable(properties), "property_type", t) == Err(NotFound("property_type"))
  {
    var rows := PropertiesTable(properties);
    assert forall i :: 0 <= i < |rows| ==> rows[i]["property_type"] == properties[i].property_type;
  }

  /**
   * Once the checks pass, an empty listing is answered 404 with the
   * "no properties" message, and a non-empty one 200 with the rows.
   */
  lemma ListingAnswers(req: ListingRequest, properties: seq<Property>, propertyTypes: seq<PropertyType>,
                       execute: Query -> Result<seq<JsObject>>)
    requires !BadPrices(req) && CheckListingType(properties, req).Ok?
    requires ListingResult(req, propertyTypes, execute).Ok?
    ensures var found := ListingResult(req, propertyTypes, execute).value;
            GetAllProperties(req, properties, propertyTypes, execute) ==
              if |found| == 0 then Reply(404, "No properties found with the provided criteria.")
              else Respond(Response(200, Properties(found)))
  {
  }

  /** A rejection without status 404 (a database error) is passed on unchanged. */
  lemma ListingFailureForwarded(req: ListingRequest, properties: seq<Property>, propertyTypes: seq<PropertyType>,
                                execute: Query -> Result<seq<JsObject>>)
    requires !BadPrices(req) && CheckListingType(properties, req).Ok?
    requires ListingResult(req, propertyTypes, execute).Err?
    requires ListingResult(req, propertyTypes, execute).error.status != Some(404)
    ensures GetAllProperties(req, properties, propertyTypes, execute) ==
            Forward(ListingResult(req, propertyTypes, execute).error)
  {
  }

  /** When a check fails, the listing query is never consulted. */
  lemma FailedChecksIgnoreQuery(req: ListingRequest, properties: seq<Property>, propertyTypes: seq<PropertyType>,
                                execute1: Query -> Result<seq<JsObject>>, execute2: Query -> Result<seq<JsObject>>)
    requires BadPrices(req) || CheckListingType(properties, req).Err? ||
             ListingQuery(req, propertyTypes).Err?
    ensures GetAllProperties(req, properties, propertyTypes, execute1) ==
            GetAllProperties(req, properties, propertyTypes, execute2)
  {
  }

  // ---------------------------------------------------------------------------
  // getPropertyByType
  // ---------------------------------------------------------------------------

  /** The catch block of getPropertyByType: 404 keeps its msg, anything else is a plain-text 500. */
  function CatchByType(err: JsError): (r: Response)
    ensures err.status == Some(404) ==> r == Response(404, Msg(err.msg))
    ensures err.status != Some(404) ==> r == Response(500, Text("Server error"))
  {
    if err.status == Some(404) then Response(404, Msg(err.msg)) else Response(500, Text("Server error"))
  }

  /** The listing request `fetchAllProperties(null, null, property_type)`. */
  function ByTypeRequest(property_type: string): ListingRequest {
    ListingRequest(None, None, Some(property_type), None, None)
  }

  /** getPropertyByType after its check. */
  function AnswerByType(property_type: string, propertyTypes: seq<PropertyType>,
                        execute: Query -> Result<seq<JsObject>>): (r: Response)
    ensures r.status == 200 ==>
              r.body.Properties? && ListingResult(ByTypeRequest(property_type), propertyTypes, execute) == Ok(r.body.properties)
  {
    match ListingResult(ByTypeRequest(property_type), propertyTypes, execute)
    case Err(e) => CatchByType(e)
    case Ok(found) => Response(200, Properties(found))
  }

  /**
   * getPropertyByType: it answers every request itself and never calls
   * next. A type no property has is the check's 404, and a 200 carries the
   * listing fetchAllProperties gives for that type.
   */
  function GetPropertyByType(property_type: string, properties: seq<Property>, propertyTypes: seq<PropertyType>,
                             execute: Query -> Result<seq<JsObject>>): (r: Response)
    ensures CheckExists(PropertiesTable(properties), "property_type", property_type).Err? ==>
              r == Response(404, Msg(NotFound("property_type").msg))
    ensures r.status == 200 ==>
              CheckExists(PropertiesTable(properties), "property_type", property_type).Ok? &&
              r.body.Properties? &&
              ListingResult(ByTypeRequest(property_type), propertyTypes, execute) == Ok(r.body.properties)
  {
    match CheckExists(PropertiesTable(properties), "property_type", property_type)
    case Err(e) => CatchByType(e)
    case Ok(_) => AnswerByType(property_type, propertyTypes, execute)
  }

  /** A type some property has is listed with 200, even when the query finds nothing. */
  lemma ByTypeListed(property_type: string, properties: seq<Property>, propertyTypes: seq<PropertyType>,
                     execute: Query -> Result<seq<JsObject>>, k: nat)
    requires k < |properties| && EqualsIgnoringCase(properties[k].property_type, property_type)
    requires TypeKnown(propertyTypes, property_type)
    requires execute(ListingQuery(ByTypeRequest(property_type), propertyTypes).value).Ok?
    ensures GetPropertyByType(property_type, properties, propertyTypes, execute) ==
            Response(200, Properties(CoerceRows(execute(ListingQuery(ByTypeRequest(property_type), propertyTypes).value).value)))
  {
    var t := PropertiesTable(properties);
    assert t[k]["property_type"] == properties[k].property_type;
  }

  /** The answer is 200, 404 or 500, and the 500 is the plain text "Server error". */
  lemma ByTypeStatuses(property_type: string, properties: seq<Property>, propertyTypes: seq<PropertyType>,
                       execute: Query -> Result<seq<JsObject>>)
    ensures var r := GetPropertyByType(property_type, properties, propertyTypes, execute);
            (r.status == 200 && r.body.Properties?) || (r.status == 404 && r.body.Msg?) ||
            r == Response(500, Text("Server error"))
  {
  }

  /** A type missing from property_types, though some property has it, is a 404 with the model's message. */
  lemma ByTypeUnknownType(property_type: string, properties: seq<Property>, propertyTypes: seq<PropertyType>,
                          execute: Query -> Result<seq<JsObject>>, k: nat)
    requires property_type != ""
    requires k < |properties| && EqualsIgnoringCase(properties[k].property_type, property_type)
    requires !TypeKnown(propertyTypes, property_type)
    ensures GetPropertyByType(property_type, properties, propertyTypes, execute) ==
            Response(404, Msg(Some("property_type not found")))
  {
    var t := PropertiesTable(properties);
    assert t[k]["property_type"] == properties[k].property_type;
    assert CheckExists(t, "property_type", property_type).Ok?;
    assert ListingResult(ByTypeRequest(property_type), propertyTypes, execute) == Err(TypeNotFound);
  }
}
