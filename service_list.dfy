/** frontend/components/ServiceList.tsx: the services block of the home page. */
module ServiceList {
  import opened Seqs
  import opened Strings

  datatype Service = Service(id: nat, title: string, description: string)

  /** Nothing at all, a grid of at most six with an optional 'View All Services', or a list. */
  datatype View = Nothing | Grid(shown: seq<Service>, viewAll: bool) | List(shown: seq<Service>)

  function Render(services: seq<Service>): (v: View)
    ensures v.Nothing? <==> |services| == 0
    ensures v.Grid? <==> |services| > 4
  {
    if |services| == 0 then Nothing
    else if |services| > 4 then Grid(Take(services, 6), |services| > 6)
    else List(services)
  }

  /** The grid shows the first six services and offers the full list exactly when one is cut;
      the list shows every service. */
  lemma ShownServices(services: seq<Service>)
    ensures Render(services).Grid? ==>
      Render(services).shown == services[..|Render(services).shown|]
      && |Render(services).shown| == (if |services| < 6 then |services| else 6)
      && (Render(services).viewAll <==> |Render(services).shown| < |services|)
    ensures Render(services).List? ==> Render(services).shown == services
  {
  }

  /** `0{index + 1}` */
  function Number(index: nat): string {
    "0" + DecimalString(index + 1)
  }

  /** Every number the block can show is '0' and one digit: at most six services are shown. */
  lemma {:induction false} NumbersAreTwoDigits(services: seq<Service>, index: nat)
    requires !Render(services).Nothing? && index < |Render(services).shown|
    ensures |Number(index)| == 2 && Number(index)[0] == '0' && Number(index)[1] == Digit(index + 1)
  {
    DecimalLength(index + 1);
    assert DecimalString(index + 1) == [Digit(index + 1)];
  }
}
