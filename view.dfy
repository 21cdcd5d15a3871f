/**
 * The CouchDB view reference of couchdb4j: a name, an optional owning
 * document, an optional function definition, and the query options the
 * setters accumulate in place before the view is queried.
 */
module CouchView {
  import opened Wrappers
  import opened Decimal
  import opened ViewOptions
  import Query

  /** The owning document; only the id under which it publishes its views is used. */
  datatype Document = Document(viewDocumentId: string)

  class View {
    var name: string
    var document: Option<Document>
    var definition: Option<string>
    var queryParams: Query.Params

    /** The option map holds only known options, and boolean ones only while true. */
    ghost predicate Valid()
      reads this
    {
      WellFormed(queryParams)
    }

    /** A view of `doc` (which may be null) called `name`, with no options set. */
    constructor (doc: Option<Document>, name: string)
      ensures this.name == name && document == doc && definition.None?
      ensures queryParams == map[] && Valid()
    {
      this.document := doc;
      this.name := name;
      this.definition := None;
      this.queryParams := map[];
    }

    /** A view known only by its full name, such as `_temp_view`. */
    constructor FromFullName(fullname: string)
      ensures name == fullname && document.None? && definition.None?
      ensures queryParams == map[] && Valid()
    {
      this.name := fullname;
      this.document := None;
      this.definition := None;
      this.queryParams := map[];
    }

    /** A view of `doc` together with its function definition. */
    constructor WithDefinition(doc: Option<Document>, name: string, definition: Option<string>)
      ensures this.name == name && document == doc && this.definition == definition
      ensures queryParams == map[] && Valid()
    {
      this.name := name;
      this.document := doc;
      this.definition := definition;
      this.queryParams := map[];
    }

    /**
     * Renders the options as a query string, visiting the entries in `order`
     * (the map's iteration order). Pairs are separated by `&`; an empty
     * result is reported as `None`.
     */
    method GetQueryString(order: seq<string>) returns (q: Option<string>)
      requires Query.Enumerates(order, queryParams)
      ensures q == Query.QueryString(queryParams, order)
    {
      var buffer := "";
      var i := 0;
      while i < |order|
        invariant 0 <= i <= |order|
        invariant buffer == Query.Join(Query.Segments(queryParams, order[..i]))
        invariant buffer == "" <==> Query.Segments(queryParams, order[..i]) == []
      {
        var key := order[i];
        var value := queryParams[key];
        assert order[..i + 1][..i] == order[..i];
        ghost var done := Query.Segments(queryParams, order[..i]);
        if value.Some? && value.value != "" {
          ghost var next := done + [Query.Pair(key, value.value)];
          assert next[..|next| - 1] == done;
          assert Query.Segments(queryParams, order[..i + 1]) == next;
          if |buffer| > 0 {
            buffer := buffer + "&";
          }
          buffer := buffer + key + "=" + value.value;
          assert buffer == Query.Join(next);
        } else {
          assert Query.Segments(queryParams, order[..i + 1]) == done;
        }
        i := i + 1;
      }
      assert order[..i] == order;
      q := if buffer == "" then None else Some(buffer);
    }

    /** Sets the exact-match key, quoting it unless it already starts with a quote. */
    method SetKey(key: string)
      modifies this`queryParams
      ensures queryParams == Apply(old(queryParams), Key(key))
      ensures old(Valid()) ==> Valid()
    {
      var k := key;
      if !StartsWithQuote(k) {
        k := "\"" + k + "\"";
      }
      queryParams := queryParams["key" := Some(k)];
    }

    /** Starts the listing at the single key `startKey`. */
    method SetSingleStartKey(startKey: string)
      modifies this`queryParams
      ensures queryParams == Apply(old(queryParams), SingleStartKey(startKey))
      ensures old(Valid()) ==> Valid()
    {
      SetStartKey(Some("[\"" + startKey + "\"]"));
    }

    /** Starts the listing at `startKey`, stored as given (null included). */
    method SetStartKey(startKey: Option<string>)
      modifies this`queryParams
      ensures queryParams == Apply(old(queryParams), StartKey(startKey))
      ensures old(Valid()) ==> Valid()
    {
      queryParams := queryParams["startkey" := startKey];
    }

    /** Stops the listing at the single key `endKey`. */
    method SetSingleEndKey(endKey: string)
      modifies this`queryParams
      ensures queryParams == Apply(old(queryParams), SingleEndKey(endKey))
      ensures old(Valid()) ==> Valid()
    {
      SetEndKey(Some("[\"" + endKey + "\"]"));
    }

    /** Stops the listing at `endKey`, stored as given (null included). */
    method SetEndKey(endKey: Option<string>)
      modifies this`queryParams
      ensures queryParams == Apply(old(queryParams), EndKey(endKey))
      ensures old(Valid()) ==> Valid()
    {
      queryParams := queryParams["endkey" := endKey];
    }

    /** Deprecated name of `SetLimit`. */
    method SetCount(count: Int32)
      modifies this`queryParams
      ensures queryParams == Apply(old(queryParams), Count(count))
      ensures old(Valid()) ==> Valid()
    {
      SetLimit(count);
    }

    /** The number of entries to return. */
    method SetLimit(limit: Int32)
      modifies this`queryParams
      ensures queryParams == Apply(old(queryParams), Limit(limit))
      ensures old(Valid()) ==> Valid()
    {
      queryParams := queryParams["limit" := Some(ToDecimal(limit as int))];
    }

    /** Deprecated name of `SetDescending`. */
    method SetReverse(reverse: bool)
      modifies this`queryParams
      ensures queryParams == Apply(old(queryParams), Reverse(reverse))
      ensures old(Valid()) ==> Valid()
    {
      SetDescending(reverse);
    }

    method SetDescending(descending: bool)
      modifies this`queryParams
      ensures queryParams == Apply(old(queryParams), Descending(descending))
      ensures old(Valid()) ==> Valid()
    {
      SetBooleanParameter("descending", descending);
    }

    method SetGroup(group: bool)
      modifies this`queryParams
      ensures queryParams == Apply(old(queryParams), Group(group))
      ensures old(Valid()) ==> Valid()
    {
      SetBooleanParameter("group", group);
    }

    /** The number of leading rows to skip. */
    method SetSkip(skip: Int32)
      modifies this`queryParams
      ensures queryParams == Apply(old(queryParams), Skip(skip))
      ensures old(Valid()) ==> Valid()
    {
      queryParams := queryParams["skip" := Some(ToDecimal(skip as int))];
    }

    method SetUpdate(update: bool)
      modifies this`queryParams
      ensures queryParams == Apply(old(queryParams), Update(update))
      ensures old(Valid()) ==> Valid()
    {
      SetBooleanParameter("update", update);
    }

    /** The name of the view, without the document id. */
    function GetName(): (r: string)
      reads this
      ensures r == name
    {
      name
    }

    /** `docid/name` when the view belongs to a document, else just `name`. */
    function GetFullName(): (r: string)
      reads this
      ensures document.None? ==> r == name
      ensures document.Some? ==>
        var id := document.value.viewDocumentId;
        |r| == |id| + 1 + |name| && r[..|id|] == id && r[|id|] == '/' && r[|id| + 1..] == name
    {
      if document == None then name else document.value.viewDocumentId + "/" + name
    }

    /** The function definition, when the view was built with one. */
    function GetFunction(): (r: Option<string>)
      reads this
      ensures r == definition
    {
      definition
    }

    /** Stores "true" under `param` when `value` holds, and removes `param` otherwise. */
    method SetBooleanParameter(param: string, value: bool)
      modifies this`queryParams
      ensures queryParams == Store(old(queryParams), param, BooleanWrite(value))
      ensures value ==> param in queryParams && queryParams[param] == Some("true")
      ensures !value ==> param !in queryParams
    {
      if value {
        queryParams := queryParams[param := Some("true")];
      } else {
        queryParams := queryParams - {param};
      }
    }
  }
}
