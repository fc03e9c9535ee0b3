// The emergency services page: the SOS alert, the emergency contact list and
// the safe-route search.

module Emergency {
  import opened Wrappers
  import opened Text
  import opened Lists
  import opened Storage

  datatype EmergencyContact = EmergencyContact(id: string, name: string, phone: string)

  /** A position reported by the browser, in degrees. */
  datatype Location = Location(lat: real, lng: real)

  /** The id of a contact added at `now` milliseconds: `contact-${Date.now()}`. */
  function ContactId(now: nat): string {
    "contact-" + NatToString(now)
  }

  /** Two contacts get the same id exactly when they are added in the same millisecond. */
  lemma ContactIdsCollide(a: nat, b: nat)
    ensures ContactId(a) == ContactId(b) <==> a == b
  {
    NumberedIdInjective("contact-", a, b);
  }

  /** How many contacts carry the id `id`. */
  function CountWithId(contacts: seq<EmergencyContact>, id: string): (n: nat)
    ensures n <= |contacts|
    ensures n == 0 <==> forall c :: c in contacts ==> c.id != id
  {
    if contacts == [] then 0
    else (if contacts[0].id == id then 1 else 0) + CountWithId(contacts[1..], id)
  }

  /**
   * `contacts.filter(contact => contact.id !== id)`: every contact with that
   * id goes, the others stay in their order.
   */
  function WithoutContact(contacts: seq<EmergencyContact>, id: string): (r: seq<EmergencyContact>)
    ensures forall c :: c in r <==> c in contacts && c.id != id
    ensures IsSubsequence(r, contacts)
    ensures |r| == |contacts| - CountWithId(contacts, id)
  {
    if contacts == [] then []
    else if contacts[0].id != id then [contacts[0]] + WithoutContact(contacts[1..], id)
    else WithoutContact(contacts[1..], id)
  }

  /** Removing an id nobody has changes nothing. */
  lemma {:induction false} WithoutAbsentContact(contacts: seq<EmergencyContact>, id: string)
    requires forall c :: c in contacts ==> c.id != id
    ensures WithoutContact(contacts, id) == contacts
  {
    if contacts != [] {
      assert contacts[0] in contacts;
      WithoutAbsentContact(contacts[1..], id);
    }
  }

  /** Removing the same id again changes nothing. */
  lemma WithoutContactIdempotent(contacts: seq<EmergencyContact>, id: string)
    ensures WithoutContact(WithoutContact(contacts, id), id) == WithoutContact(contacts, id)
  {
    WithoutAbsentContact(WithoutContact(contacts, id), id);
  }

  /** Removing one contact's id after adding it gives the list back when that id was new. */
  lemma {:induction false} WithoutAddedContact(contacts: seq<EmergencyContact>, added: EmergencyContact)
    requires forall c :: c in contacts ==> c.id != added.id
    ensures WithoutContact(contacts + [added], added.id) == contacts
  {
    if contacts == [] {
      assert contacts + [added] == [added];
    } else {
      assert (contacts + [added])[1..] == contacts[1..] + [added];
      assert contacts[0] in contacts;
      WithoutAddedContact(contacts[1..], added);
    }
  }

  /** The hint under the SOS button. */
  function ContactHint(count: nat): string {
    if count > 0 then
      "This will alert " + NatToString(count) + " emergency contact" + (if count == 1 then "" else "s") + " with your location"
    else
      "Add emergency contacts below to enable alerts"
  }

  /** The alert hint with a given count and noun. */
  function AlertHint(count: string, noun: string): string {
    "This will alert " + count + " emergency " + noun + " with your location"
  }

  /**
   * The hint names the number of contacts in decimal, in the singular for
   * exactly one and the plural otherwise, and asks for contacts when there
   * are none.
   */
  lemma ContactHintWording(count: nat)
    ensures count == 0 ==> ContactHint(count) == "Add emergency contacts below to enable alerts"
    ensures count == 1 ==> ContactHint(count) == AlertHint("1", "contact")
    ensures count > 1 ==> ContactHint(count) == AlertHint(NatToString(count), "contacts")
    ensures count > 1 ==> DecimalValue(NatToString(count)) == count
  {
    if count > 0 {
      var n := NatToString(count);
      if count == 1 {
        assert n == "1";
      }
      NatToStringRoundTrip(count);
    }
  }

  /** The state the EmergencyServices page keeps. */
  class EmergencyState {
    var sosActive: bool
    var location: Option<Location>
    var recording: bool
    var contactName: string
    var contactPhone: string
    var emergencyContacts: seq<EmergencyContact>
    var isRouteCalculating: bool
    var routeDialogOpen: bool
    var fromLocation: string
    var toLocation: string
    var mapLoading: bool
    /** Route calculations started whose timer has not fired yet. */
    var pendingRoutes: nat

    /** The page after its mount effect has read the stored contacts. */
    constructor(stored: Option<seq<EmergencyContact>>)
      ensures emergencyContacts == LoadedOr(stored, [])
      ensures !sosActive && location == None && !recording
      ensures contactName == "" && contactPhone == ""
      ensures !isRouteCalculating && !routeDialogOpen && fromLocation == "" && toLocation == ""
      ensures mapLoading && pendingRoutes == 0
    {
      sosActive := false;
      location := None;
      recording := false;
      contactName := "";
      contactPhone := "";
      match stored {
        case Some(saved) => emergencyContacts := saved;
        case None => emergencyContacts := [];
      }
      isRouteCalculating := false;
      routeDialogOpen := false;
      fromLocation := "";
      toLocation := "";
      mapLoading := true;
      pendingRoutes := 0;
    }

    /** The map-loading timer of the mount effect. */
    method MapLoaded()
      modifies this
      ensures !mapLoading
      ensures sosActive == old(sosActive) && location == old(location) && recording == old(recording)
      ensures contactName == old(contactName) && contactPhone == old(contactPhone)
      ensures emergencyContacts == old(emergencyContacts)
      ensures isRouteCalculating == old(isRouteCalculating) && routeDialogOpen == old(routeDialogOpen)
      ensures fromLocation == old(fromLocation) && toLocation == old(toLocation)
      ensures pendingRoutes == old(pendingRoutes)
    {
      mapLoading := false;
    }

    /**
     * triggerSOS once the browser has answered the location request: a
     * position records the location and activates the alert; an error
     * changes nothing.
     */
    method TriggerSOS(position: Option<Location>)
      modifies this
      ensures position.Some? ==> sosActive && location == position
      ensures position.None? ==> sosActive == old(sosActive) && location == old(location)
      ensures recording == old(recording) && emergencyContacts == old(emergencyContacts)
      ensures contactName == old(contactName) && contactPhone == old(contactPhone)
      ensures isRouteCalculating == old(isRouteCalculating) && routeDialogOpen == old(routeDialogOpen)
      ensures fromLocation == old(fromLocation) && toLocation == old(toLocation)
      ensures mapLoading == old(mapLoading) && pendingRoutes == old(pendingRoutes)
    {
      match position {
        case Some(here) =>
          location := Some(here);
          sosActive := true;
        case None =>
      }
    }

    /** cancelSOS: the alert and the recording both stop; the last location stays. */
    method CancelSOS()
      modifies this
      ensures !sosActive && !recording
      ensures location == old(location) && emergencyContacts == old(emergencyContacts)
      ensures contactName == old(contactName) && contactPhone == old(contactPhone)
      ensures isRouteCalculating == old(isRouteCalculating) && routeDialogOpen == old(routeDialogOpen)
      ensures fromLocation == old(fromLocation) && toLocation == old(toLocation)
      ensures mapLoading == old(mapLoading) && pendingRoutes == old(pendingRoutes)
    {
      sosActive := false;
      recording := false;
    }

    /** toggleRecording: the recording flag flips. */
    method ToggleRecording()
      modifies this
      ensures recording == !old(recording)
      ensures sosActive == old(sosActive) && location == old(location)
      ensures emergencyContacts == old(emergencyContacts)
      ensures contactName == old(contactName) && contactPhone == old(contactPhone)
      ensures isRouteCalculating == old(isRouteCalculating) && routeDialogOpen == old(routeDialogOpen)
      ensures fromLocation == old(fromLocation) && toLocation == old(toLocation)
      ensures mapLoading == old(mapLoading) && pendingRoutes == old(pendingRoutes)
    {
      recording := !recording;
    }

    /** The contact name input's onChange. */
    method SetContactName(value: string)
      modifies this
      ensures contactName == value
      ensures sosActive == old(sosActive) && location == old(location) && recording == old(recording)
      ensures contactPhone == old(contactPhone) && emergencyContacts == old(emergencyContacts) && isRouteCalculating == old(isRouteCalculating)
      ensures routeDialogOpen == old(routeDialogOpen) && fromLocation == old(fromLocation) && toLocation == old(toLocation)
      ensures mapLoading == old(mapLoading) && pendingRoutes == old(pendingRoutes)
    {
      contactName := value;
    }

    /** The contact phone input's onChange. */
    method SetContactPhone(value: string)
      modifies this
      ensures contactPhone == value
      ensures sosActive == old(sosActive) && location == old(location) && recording == old(recording)
      ensures contactName == old(contactName) && emergencyContacts == old(emergencyContacts) && isRouteCalculating == old(isRouteCalculating)
      ensures routeDialogOpen == old(routeDialogOpen) && fromLocation == old(fromLocation) && toLocation == old(toLocation)
      ensures mapLoading == old(mapLoading) && pendingRoutes == old(pendingRoutes)
    {
      contactPhone := value;
    }

    /** The starting point input's onChange. */
    method SetFromLocation(value: string)
      modifies this
      ensures fromLocation == value
      ensures sosActive == old(sosActive) && location == old(location) && recording == old(recording)
      ensures contactName == old(contactName) && contactPhone == old(contactPhone) && emergencyContacts == old(emergencyContacts)
      ensures isRouteCalculating == old(isRouteCalculating) && routeDialogOpen == old(routeDialogOpen) && toLocation == old(toLocation)
      ensures mapLoading == old(mapLoading) && pendingRoutes == old(pendingRoutes)
    {
      fromLocation := value;
    }

    /** The destination input's onChange. */
    method SetToLocation(value: string)
      modifies this
      ensures toLocation == value
      ensures sosActive == old(sosActive) && location == old(location) && recording == old(recording)
      ensures contactName == old(contactName) && contactPhone == old(contactPhone) && emergencyContacts == old(emergencyContacts)
      ensures isRouteCalculating == old(isRouteCalculating) && routeDialogOpen == old(routeDialogOpen) && fromLocation == old(fromLocation)
      ensures mapLoading == old(mapLoading) && pendingRoutes == old(pendingRoutes)
    {
      toLocation := value;
    }

    /**
     * addEmergencyContact at time `now`: with the name or the phone empty
     * nothing changes; otherwise the contact goes at the end of the list and
     * both inputs are cleared.
     */
    method AddEmergencyContact(now: nat)
      modifies this
      ensures old(contactName) == "" || old(contactPhone) == "" ==>
        emergencyContacts == old(emergencyContacts) &&
        contactName == old(contactName) && contactPhone == old(contactPhone)
      ensures old(contactName) != "" && old(contactPhone) != "" ==>
        emergencyContacts == old(emergencyContacts) + [EmergencyContact(ContactId(now), old(contactName), old(contactPhone))] &&
        contactName == "" && contactPhone == ""
      ensures sosActive == old(sosActive) && location == old(location) && recording == old(recording)
      ensures isRouteCalculating == old(isRouteCalculating) && routeDialogOpen == old(routeDialogOpen)
      ensures fromLocation == old(fromLocation) && toLocation == old(toLocation)
      ensures mapLoading == old(mapLoading) && pendingRoutes == old(pendingRoutes)
    {
      if contactName == "" || contactPhone == "" {
        return;
      }
      var newContact := EmergencyContact(ContactId(now), contactName, contactPhone);
      emergencyContacts := emergencyContacts + [newContact];
      contactName := "";
      contactPhone := "";
    }

    /** removeContact: every contact with that id leaves the list. */
    method RemoveContact(contactId: string)
      modifies this
      ensures emergencyContacts == WithoutContact(old(emergencyContacts), contactId)
      ensures sosActive == old(sosActive) && location == old(location) && recording == old(recording)
      ensures contactName == old(contactName) && contactPhone == old(contactPhone)
      ensures isRouteCalculating == old(isRouteCalculating) && routeDialogOpen == old(routeDialogOpen)
      ensures fromLocation == old(fromLocation) && toLocation == old(toLocation)
      ensures mapLoading == old(mapLoading) && pendingRoutes == old(pendingRoutes)
    {
      emergencyContacts := WithoutContact(emergencyContacts, contactId);
    }

    /** The "detect my location" card fills in the starting point when the browser finds one. */
    method LocateStart(found: bool)
      modifies this
      ensures found ==> fromLocation == "Current Location"
      ensures !found ==> fromLocation == old(fromLocation)
      ensures sosActive == old(sosActive) && location == old(location) && recording == old(recording)
      ensures emergencyContacts == old(emergencyContacts)
      ensures contactName == old(contactName) && contactPhone == old(contactPhone)
      ensures isRouteCalculating == old(isRouteCalculating) && routeDialogOpen == old(routeDialogOpen)
      ensures toLocation == old(toLocation)
      ensures mapLoading == old(mapLoading) && pendingRoutes == old(pendingRoutes)
    {
      if found {
        fromLocation := "Current Location";
      }
    }

    /**
     * The "Find Safe Route" button: without both locations nothing happens;
     * otherwise the route dialog opens and findSafeRoute starts a calculation.
     */
    method RequestSafeRoute()
      modifies this
      ensures old(fromLocation) == "" || old(toLocation) == "" ==>
        routeDialogOpen == old(routeDialogOpen) && isRouteCalculating == old(isRouteCalculating) &&
        pendingRoutes == old(pendingRoutes)
      ensures old(fromLocation) != "" && old(toLocation) != "" ==>
        routeDialogOpen && isRouteCalculating && pendingRoutes == old(pendingRoutes) + 1
      ensures fromLocation == old(fromLocation) && toLocation == old(toLocation)
      ensures sosActive == old(sosActive) && location == old(location) && recording == old(recording)
      ensures emergencyContacts == old(emergencyContacts)
      ensures contactName == old(contactName) && contactPhone == old(contactPhone)
      ensures mapLoading == old(mapLoading)
    {
      if fromLocation == "" || toLocation == "" {
        return;
      }
      routeDialogOpen := true;
      FindSafeRoute();
    }

    /** findSafeRoute: the calculation starts and its timer is queued. */
    method FindSafeRoute()
      modifies this
      ensures isRouteCalculating && pendingRoutes == old(pendingRoutes) + 1
      ensures routeDialogOpen == old(routeDialogOpen)
      ensures fromLocation == old(fromLocation) && toLocation == old(toLocation)
      ensures sosActive == old(sosActive) && location == old(location) && recording == old(recording)
      ensures emergencyContacts == old(emergencyContacts)
      ensures contactName == old(contactName) && contactPhone == old(contactPhone)
      ensures mapLoading == old(mapLoading)
    {
      isRouteCalculating := true;
      pendingRoutes := pendingRoutes + 1;
    }

    /**
     * The timer of findSafeRoute fires: the calculation ends, the dialog
     * closes and both locations are cleared.
     */
    method RouteCalculated()
      requires pendingRoutes > 0
      modifies this
      ensures !isRouteCalculating && !routeDialogOpen && fromLocation == "" && toLocation == ""
      ensures pendingRoutes == old(pendingRoutes) - 1
      ensures sosActive == old(sosActive) && location == old(location) && recording == old(recording)
      ensures emergencyContacts == old(emergencyContacts)
      ensures contactName == old(contactName) && contactPhone == old(contactPhone)
      ensures mapLoading == old(mapLoading)
    {
      isRouteCalculating := false;
      routeDialogOpen := false;
      fromLocation := "";
      toLocation := "";
      pendingRoutes := pendingRoutes - 1;
    }

    /** The route dialog's Close button, its "Open Directions" button and its own close control. */
    method CloseRouteDialog()
      modifies this
      ensures !routeDialogOpen
      ensures isRouteCalculating == old(isRouteCalculating) && pendingRoutes == old(pendingRoutes)
      ensures fromLocation == old(fromLocation) && toLocation == old(toLocation)
      ensures sosActive == old(sosActive) && location == old(location) && recording == old(recording)
      ensures emergencyContacts == old(emergencyContacts)
      ensures contactName == old(contactName) && contactPhone == old(contactPhone)
      ensures mapLoading == old(mapLoading)
    {
      routeDialogOpen := false;
    }
  }
}
