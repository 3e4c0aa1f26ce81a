/** The hard-coded tables the location service falls back to when a fetch fails:
    every region, provinces for three regions, the cities of Metro Manila and the
    barangays of two cities. They are returned in the order written here (not sorted)
    and a parent code without a row gives the empty list (`fallbackData[code] || []`). */
module LocationFallback {
  import opened Common
  import opened LocationOrder

  function FallbackRegions(): seq<Location>
  {
    [
      Location("130000000", "National Capital Region (NCR)", "130000000", None),
      Location("010000000", "Region I - Ilocos Region", "010000000", None),
      Location("020000000", "Region II - Cagayan Valley", "020000000", None),
      Location("030000000", "Region III - Central Luzon", "030000000", None),
      Location("040000000", "Region IV-A - CALABARZON", "040000000", None),
      Location("170000000", "Region IV-B - MIMAROPA", "170000000", None),
      Location("050000000", "Region V - Bicol Region", "050000000", None),
      Location("060000000", "Region VI - Western Visayas", "060000000", None),
      Location("070000000", "Region VII - Central Visayas", "070000000", None),
      Location("080000000", "Region VIII - Eastern Visayas", "080000000", None),
      Location("090000000", "Region IX - Zamboanga Peninsula", "090000000", None),
      Location("100000000", "Region X - Northern Mindanao", "100000000", None),
      Location("110000000", "Region XI - Davao Region", "110000000", None),
      Location("120000000", "Region XII - SOCCSKSARGEN", "120000000", None),
      Location("160000000", "Region XIII - Caraga", "160000000", None),
      Location("150000000", "Cordillera Administrative Region (CAR)", "150000000", None),
      Location("190000000", "Bangsamoro Autonomous Region in Muslim Mindanao (BARMM)", "190000000", None)
    ]
  }

  function FallbackProvinces(regionCode: string): seq<Location>
  {
    if regionCode == "130000000" then // NCR
      [
        Location("1300000000", "Metro Manila", "1300000000", None)
      ]
    else if regionCode == "030000000" then // Region III
      [
        Location("0308000000", "Bataan", "0308000000", None),
        Location("0314000000", "Bulacan", "0314000000", None),
        Location("0349000000", "Nueva Ecija", "0349000000", None),
        Location("0354000000", "Pampanga", "0354000000", None),
        Location("0369000000", "Tarlac", "0369000000", None),
        Location("0371000000", "Zambales", "0371000000", None)
      ]
    else if regionCode == "040000000" then // CALABARZON
      [
        Location("0410000000", "Batangas", "0410000000", None),
        Location("0421000000", "Cavite", "0421000000", None),
        Location("0434000000", "Laguna", "0434000000", None),
        Location("0456000000", "Quezon", "0456000000", None),
        Location("0458000000", "Rizal", "0458000000", None)
      ]
    else []
  }

  function FallbackCities(provinceCode: string): seq<Location>
  {
    if provinceCode == "1300000000" then // Metro Manila
      [
        Location("137404000", "Caloocan City", "137404000", Some(true)),
        Location("137405000", "Las Pi\U{F1}as City", "137405000", Some(true)),
        Location("137406000", "Makati City", "137406000", Some(true)),
        Location("137407000", "Malabon City", "137407000", Some(true)),
        Location("137408000", "Mandaluyong City", "137408000", Some(true)),
        Location("137409000", "Manila City", "137409000", Some(true)),
        Location("137410000", "Marikina City", "137410000", Some(true)),
        Location("137411000", "Muntinlupa City", "137411000", Some(true)),
        Location("137412000", "Navotas City", "137412000", Some(true)),
        Location("137413000", "Para\U{F1}aque City", "137413000", Some(true)),
        Location("137414000", "Pasay City", "137414000", Some(true)),
        Location("137415000", "Pasig City", "137415000", Some(true)),
        Location("137416000", "Pateros Municipality", "137416000", Some(false)),
        Location("137417000", "Quezon City", "137417000", Some(true)),
        Location("137418000", "San Juan City", "137418000", Some(true)),
        Location("137419000", "Taguig City", "137419000", Some(true)),
        Location("137420000", "Valenzuela City", "137420000", Some(true))
      ]
    else []
  }

  function FallbackBarangays(cityCode: string): seq<Location>
  {
    if cityCode == "137417000" then // Quezon City
      [
        Location("137417001", "Bagong Pag-asa", "137417001", None),
        Location("137417002", "Bahay Toro", "137417002", None),
        Location("137417003", "Balingasa", "137417003", None),
        Location("137417004", "Commonwealth", "137417004", None),
        Location("137417005", "Culiat", "137417005", None),
        Location("137417006", "Diliman", "137417006", None),
        Location("137417007", "Fairview", "137417007", None),
        Location("137417008", "Holy Spirit", "137417008", None),
        Location("137417009", "Kamuning", "137417009", None),
        Location("137417010", "Loyola Heights", "137417010", None),
        Location("137417011", "Novaliches", "137417011", None),
        Location("137417012", "Project 6", "137417012", None),
        Location("137417013", "Project 8", "137417013", None),
        Location("137417014", "Tandang Sora", "137417014", None),
        Location("137417015", "U.P. Campus", "137417015", None)
      ]
    else if cityCode == "137409000" then // Manila
      [
        Location("137409001", "Binondo", "137409001", None),
        Location("137409002", "Ermita", "137409002", None),
        Location("137409003", "Intramuros", "137409003", None),
        Location("137409004", "Malate", "137409004", None),
        Location("137409005", "Paco", "137409005", None),
        Location("137409006", "Quiapo", "137409006", None),
        Location("137409007", "Sampaloc", "137409007", None),
        Location("137409008", "San Miguel", "137409008", None),
        Location("137409009", "Santa Cruz", "137409009", None),
        Location("137409010", "Tondo", "137409010", None)
      ]
    else []
  }
}
