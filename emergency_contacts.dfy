/**
 * The emergency-contacts page: a fixed table of regions and their contacts,
 * narrowed by the selected region and by a case-insensitive search over the
 * contact's type and description, with each number turned into a `tel:` link.
 */
module EmergencyContacts {
  import opened Strings

  /** One contact; `kind` is the `type` property of the page's table. */
  datatype Contact = Contact(kind: string, number: string, description: string)

  datatype Region = Region(name: string, contacts: seq<Contact>)

  /** A table keyed by region identifier, in the order its keys are listed. */
  type Table = seq<(string, Region)>

  /** The page's contact table. */
  const ContactTable: Table := [
    ("jamaica", Region("Jamaica", [
      Contact("Emergency Services", "119", "Police, Fire, Ambulance"),
      Contact("Police", "119", "Jamaica Constabulary Force"),
      Contact("Fire Brigade", "110", "Jamaica Fire Brigade"),
      Contact("Ambulance", "110", "Emergency Medical Services"),
      Contact("Disaster Management", "1-888-463-6282", "Office of Disaster Preparedness and Emergency Management (ODPEM)"),
      Contact("Hurricane Hotline", "1-888-991-5005", "ODPEM Hurricane Information"),
      Contact("Red Cross", "1-876-926-3516", "Jamaica Red Cross")
    ])),
    ("bahamas", Region("Bahamas", [
      Contact("Emergency Services", "919", "Police, Fire, Ambulance"),
      Contact("Police", "911 or 919", "Royal Bahamas Police Force"),
      Contact("Fire Brigade", "919", "Fire Services"),
      Contact("Disaster Management", "1-242-322-6232", "National Emergency Management Agency (NEMA)"),
      Contact("Hurricane Center", "1-242-377-7025", "Bahamas Department of Meteorology"),
      Contact("Red Cross", "1-242-323-7370", "Bahamas Red Cross")
    ])),
    ("barbados", Region("Barbados", [
      Contact("Emergency Services", "211", "Police, Fire, Ambulance"),
      Contact("Police", "211", "Royal Barbados Police Force"),
      Contact("Fire Brigade", "311", "Barbados Fire Service"),
      Contact("Ambulance", "511", "Emergency Ambulance Service"),
      Contact("Disaster Management", "1-246-511-4200", "Department of Emergency Management (DEM)"),
      Contact("Red Cross", "1-246-427-6461", "Barbados Red Cross")
    ])),
    ("trinidad", Region("Trinidad and Tobago", [
      Contact("Emergency Services", "999", "Police, Fire, Ambulance"),
      Contact("Police", "999", "Trinidad and Tobago Police Service"),
      Contact("Fire Brigade", "990", "Fire Services"),
      Contact("Ambulance", "811", "Emergency Health Services"),
      Contact("Disaster Management", "1-868-511-4362", "Office of Disaster Preparedness and Management (ODPM)"),
      Contact("Red Cross", "1-868-627-6265", "Trinidad and Tobago Red Cross")
    ])),
    ("puerto-rico", Region("Puerto Rico", [
      Contact("Emergency Services", "911", "Police, Fire, Ambulance"),
      Contact("Police", "911", "Puerto Rico Police"),
      Contact("Fire Department", "911", "Fire Services"),
      Contact("Disaster Management", "1-787-724-0124", "Emergency Management Bureau"),
      Contact("FEMA", "1-800-621-3362", "Federal Emergency Management Agency"),
      Contact("Red Cross", "1-787-758-8150", "American Red Cross - Puerto Rico")
    ])),
    ("florida", Region("Florida, USA", [
      Contact("Emergency Services", "911", "Police, Fire, Ambulance"),
      Contact("Hurricane Hotline", "1-800-342-3557", "Florida Division of Emergency Management"),
      Contact("FEMA", "1-800-621-3362", "Federal Emergency Management Agency"),
      Contact("Red Cross", "1-800-RED-CROSS", "American Red Cross"),
      Contact("Emergency Info", "211", "General Emergency Information")
    ]))
  ]

  /** No key is listed twice, as in an object literal. */
  predicate DistinctKeys(table: Table)
  {
    forall i, j :: 0 <= i < j < |table| ==> table[i].0 != table[j].0
  }

  predicate HasKey(table: Table, key: string)
  {
    exists i :: 0 <= i < |table| && table[i].0 == key
  }

  /** `table[key]`: the region listed under `key`. */
  function Lookup(table: Table, key: string): (r: Region)
    requires HasKey(table, key)
    ensures exists i :: 0 <= i < |table| && table[i] == (key, r)
  {
    if table[0].0 == key then table[0].1 else Lookup(table[1..], key)
  }

  /** In a table without repeated keys, looking up the key at index `i` gives the region at `i`. */
  lemma {:induction false} LookupAt(table: Table, i: nat)
    requires DistinctKeys(table) && i < |table|
    ensures HasKey(table, table[i].0) && Lookup(table, table[i].0) == table[i].1
  {
    if i > 0 {
      assert table[0].0 != table[i].0;
      assert table[1..][i - 1] == table[i];
      LookupAt(table[1..], i - 1);
    }
  }

  /**
   * `filteredContacts`: the whole table when no region is selected, otherwise
   * the one selected entry. The select only offers "" and the table's keys.
   */
  function FilteredContacts(table: Table, selected: string): (r: Table)
    requires selected == "" || HasKey(table, selected)
    ensures selected == "" ==> r == table
    ensures selected != "" ==> |r| == 1 && r[0].0 == selected && (exists i :: 0 <= i < |table| && table[i] == r[0])
  {
    if selected == "" then table else [(selected, Lookup(table, selected))]
  }

  /** An option of the region select: its `value` and its `label` (here `caption`). */
  datatype RegionOption = RegionOption(value: string, caption: string)

  /** `regions`: one option per key, labelled with that region's name, in key order. */
  function Regions(table: Table): (r: seq<RegionOption>)
    ensures |r| == |table|
    ensures forall i :: 0 <= i < |r| ==> r[i].value == table[i].0 && r[i].caption == table[i].1.name
  {
    seq(|table|, i requires 0 <= i < |table| => RegionOption(table[i].0, table[i].1.name))
  }

  /** The page's table has six regions under six different keys. */
  lemma ContactTableShape()
    ensures |ContactTable| == 6 && DistinctKeys(ContactTable)
    ensures Regions(ContactTable)[0] == RegionOption("jamaica", "Jamaica")
  {
    var keys := seq(|ContactTable|, i requires 0 <= i < |ContactTable| => ContactTable[i].0);
    assert keys == ["jamaica", "bahamas", "barbados", "trinidad", "puerto-rico", "florida"];
    assert "bahamas"[2] != "barbados"[2];
  }

  /** The search test of one contact, on the lower-cased texts. */
  predicate MatchesQuery(c: Contact, query: string)
  {
    query == ""
    || Contains(Lower(c.kind), Lower(query))
    || Contains(Lower(c.description), Lower(query))
  }

  /** `regionData.contacts.filter(...)`: the contacts that pass the search, in their order. */
  function SearchContacts(contacts: seq<Contact>, query: string): seq<Contact>
  {
    if contacts == [] then []
    else (if MatchesQuery(contacts[0], query) then [contacts[0]] else []) + SearchContacts(contacts[1..], query)
  }

  /** An empty search keeps every contact. */
  lemma {:induction false} SearchEmptyKeepsAll(contacts: seq<Contact>)
    ensures SearchContacts(contacts, "") == contacts
  {
    if contacts != [] {
      SearchEmptyKeepsAll(contacts[1..]);
    }
  }

  /** A contact is kept exactly when it is in the region and passes the search. */
  lemma {:induction false} SearchMembership(contacts: seq<Contact>, query: string, c: Contact)
    ensures c in SearchContacts(contacts, query) <==> c in contacts && MatchesQuery(c, query)
  {
    if contacts != [] {
      SearchMembership(contacts[1..], query, c);
      assert contacts == [contacts[0]] + contacts[1..];
    }
  }

  /** The kept contacts stay in the region's order: they form a subsequence of it. */
  lemma {:induction false} SearchIsSubsequence(contacts: seq<Contact>, query: string)
    ensures IsSubsequence(SearchContacts(contacts, query), contacts)
  {
    if contacts != [] {
      var rest := SearchContacts(contacts[1..], query);
      SearchIsSubsequence(contacts[1..], query);
      if MatchesQuery(contacts[0], query) {
        assert SearchContacts(contacts, query) == [contacts[0]] + rest;
        assert ([contacts[0]] + rest)[1..] == rest;
      } else {
        assert SearchContacts(contacts, query) == rest;
        SubsequenceOfTail(rest, contacts);
      }
    }
  }

  /**
   * The `searchQuery === ''` test adds nothing: every text includes the empty
   * string, so the substring tests alone decide the same way.
   */
  lemma EmptyGuardRedundant(c: Contact, query: string)
    ensures MatchesQuery(c, query) <==>
      Contains(Lower(c.kind), Lower(query)) || Contains(Lower(c.description), Lower(query))
  {
    if query == "" {
      ContainsEmpty(Lower(c.kind));
    }
  }

  /** A region section as rendered: its key, its name and the contacts that passed the search. */
  datatype Section = Section(key: string, name: string, contacts: seq<Contact>)

  /** The sections rendered, in table order; a region with no matching contact renders nothing. */
  function VisibleSections(shown: Table, query: string): seq<Section>
  {
    if shown == [] then []
    else
      var found := SearchContacts(shown[0].1.contacts, query);
      (if found == [] then [] else [Section(shown[0].0, shown[0].1.name, found)])
      + VisibleSections(shown[1..], query)
  }

  /** Every rendered section has at least one contact, each of which passed the search. */
  lemma {:induction false} SectionsNonEmpty(shown: Table, query: string, k: nat)
    requires k < |VisibleSections(shown, query)|
    ensures VisibleSections(shown, query)[k].contacts != []
    ensures forall c :: c in VisibleSections(shown, query)[k].contacts ==> MatchesQuery(c, query)
  {
    var found := SearchContacts(shown[0].1.contacts, query);
    var head := if found == [] then [] else [Section(shown[0].0, shown[0].1.name, found)];
    if k < |head| {
      forall c | c in found ensures MatchesQuery(c, query) {
        SearchMembership(shown[0].1.contacts, query, c);
      }
    } else {
      SectionsNonEmpty(shown[1..], query, k - |head|);
    }
  }

  /** One of `sections` is the section of `key`. */
  predicate SectionFor(sections: seq<Section>, key: string)
  {
    exists k :: 0 <= k < |sections| && sections[k].key == key
  }

  /** A key has a section in two runs of sections exactly when it has one in either. */
  lemma SectionForAppend(head: seq<Section>, rest: seq<Section>, key: string)
    ensures SectionFor(head + rest, key) <==> SectionFor(head, key) || SectionFor(rest, key)
  {
    if SectionFor(rest, key) {
      var k :| 0 <= k < |rest| && rest[k].key == key;
      assert (head + rest)[|head| + k] == rest[k];
    }
    if SectionFor(head + rest, key) {
      var k :| 0 <= k < |head + rest| && (head + rest)[k].key == key;
      if k >= |head| {
        assert rest[k - |head|] == (head + rest)[k];
      } else {
        assert head[k] == (head + rest)[k];
      }
    }
    if SectionFor(head, key) {
      var k :| 0 <= k < |head| && head[k].key == key;
      assert (head + rest)[k] == head[k];
    }
  }

  /** A region is rendered exactly when one of its contacts passes the search. */
  lemma {:induction false} SectionShownIff(shown: Table, query: string, i: nat)
    requires i < |shown| && DistinctKeys(shown)
    ensures SectionFor(VisibleSections(shown, query), shown[i].0)
        <==> (exists c :: c in shown[i].1.contacts && MatchesQuery(c, query))
  {
    var found := SearchContacts(shown[0].1.contacts, query);
    var head := if found == [] then [] else [Section(shown[0].0, shown[0].1.name, found)];
    var rest := VisibleSections(shown[1..], query);
    assert VisibleSections(shown, query) == head + rest;
    SectionForAppend(head, rest, shown[i].0);
    if i == 0 {
      KeyAbsentFromRest(shown, query);
      if found != [] {
        SearchMembership(shown[0].1.contacts, query, found[0]);
        assert head[0].key == shown[0].0;
      } else {
        forall c | c in shown[0].1.contacts && MatchesQuery(c, query) ensures false {
          SearchMembership(shown[0].1.contacts, query, c);
        }
      }
    } else {
      assert shown[1..][i - 1] == shown[i];
      SectionShownIff(shown[1..], query, i - 1);
      if head != [] {
        assert shown[0].0 != shown[i].0;
      }
    }
  }

  /** Every section's key is the key of one of the shown entries. */
  lemma {:induction false} SectionKeysFromTable(shown: Table, query: string, k: nat)
    requires k < |VisibleSections(shown, query)|
    ensures exists i :: 0 <= i < |shown| && shown[i].0 == VisibleSections(shown, query)[k].key
  {
    var found := SearchContacts(shown[0].1.contacts, query);
    var head := if found == [] then [] else [Section(shown[0].0, shown[0].1.name, found)];
    if k >= |head| {
      SectionKeysFromTable(shown[1..], query, k - |head|);
      var i :| 0 <= i < |shown[1..]| && shown[1..][i].0 == VisibleSections(shown[1..], query)[k - |head|].key;
      assert shown[i + 1] == shown[1..][i];
    } else {
      assert shown[0].0 == VisibleSections(shown, query)[k].key;
    }
  }

  /** The first entry's key does not reappear among the sections of the later entries. */
  lemma KeyAbsentFromRest(shown: Table, query: string)
    requires shown != [] && DistinctKeys(shown)
    ensures forall k :: 0 <= k < |VisibleSections(shown[1..], query)| ==> VisibleSections(shown[1..], query)[k].key != shown[0].0
  {
    forall k | 0 <= k < |VisibleSections(shown[1..], query)|
      ensures VisibleSections(shown[1..], query)[k].key != shown[0].0
    {
      SectionKeysFromTable(shown[1..], query, k);
      var i :| 0 <= i < |shown[1..]| && shown[1..][i].0 == VisibleSections(shown[1..], query)[k].key;
      assert shown[1..][i] == shown[i + 1];
    }
  }

  /** The characters the `tel:` link keeps: `[0-9+]`. */
  predicate IsDialChar(c: char)
  {
    '0' <= c <= '9' || c == '+'
  }

  /** `number.replace(/[^0-9+]/g, '')`: the number without anything but digits and `+`. */
  function DialDigits(number: string): (r: string)
    ensures forall k :: 0 <= k < |r| ==> IsDialChar(r[k])
  {
    if number == [] then []
    else (if IsDialChar(number[0]) then [number[0]] else []) + DialDigits(number[1..])
  }

  /** The `href` of a number's call button. */
  function TelHref(number: string): string
  {
    "tel:" + DialDigits(number)
  }

  /** The kept characters are in the number's own order. */
  lemma {:induction false} DialDigitsSubsequence(number: string)
    ensures IsSubsequence(DialDigits(number), number)
  {
    if number != [] {
      var rest := DialDigits(number[1..]);
      DialDigitsSubsequence(number[1..]);
      if IsDialChar(number[0]) {
        assert ([number[0]] + rest)[1..] == rest;
      } else {
        assert DialDigits(number) == rest;
        SubsequenceOfTail(rest, number);
      }
    }
  }

  /** No digit and no `+` is lost: each occurs as often as in the number. */
  lemma {:induction false} DialDigitsKeepsAll(number: string, c: char)
    requires IsDialChar(c)
    ensures multiset(DialDigits(number))[c] == multiset(number)[c]
  {
    if number != [] {
      DialDigitsKeepsAll(number[1..], c);
      assert number == [number[0]] + number[1..];
    }
  }

  /** Sanitising a sanitised number changes nothing. */
  lemma {:induction false} DialDigitsIdempotent(number: string)
    ensures DialDigits(DialDigits(number)) == DialDigits(number)
  {
    DialDigitsOfDialString(DialDigits(number));
  }

  /** A string of dial characters only is its own sanitised form. */
  lemma {:induction false} DialDigitsOfDialString(s: string)
    requires forall k :: 0 <= k < |s| ==> IsDialChar(s[k])
    ensures DialDigits(s) == s
  {
    if s != [] {
      DialDigitsOfDialString(s[1..]);
    }
  }

  /** Sanitising a concatenation sanitises each part. */
  lemma {:induction false} DialDigitsAppend(a: string, b: string)
    ensures DialDigits(a + b) == DialDigits(a) + DialDigits(b)
  {
    if a != [] {
      assert (a + b)[0] == a[0] && (a + b)[1..] == a[1..] + b;
      DialDigitsAppend(a[1..], b);
    } else {
      assert a + b == b;
    }
  }

  /** The Bahamas police number dials both of its numbers run together. */
  lemma TelHrefTwoNumbers()
    ensures TelHref("911 or 919") == "tel:911919"
  {
    DialDigitsAppend("911", " or ");
    DialDigitsAppend("911 or ", "919");
    assert "911" + " or " == "911 or ";
    assert "911 or " + "919" == "911 or 919";
  }
}
