/**
 * The output identifiers esp-query can be asked for and the outputs each one needs
 * found first (scripts/common/esp-query/esp-query.py:120-147).
 */
module EspTables {

  /** Number of output identifiers. */
  const COUNT: nat := 43

  /** The identifier of output `i`, for `i` below COUNT (the list ls_outputs). */
  function Name(i: nat): string {
    match i
    case 0 => "model_name"
    case 1 => "number_zones"
    case 2 => "CFD_domains"
    case 3 => "zone_setpoints"
    case 4 => "model_description"
    case 5 => "zone_names"
    case 6 => "MRT_sensors"
    case 7 => "zone_floor_surfs"
    case 8 => "rad_viewpoints"
    case 9 => "rad_scene"
    case 10 => "zone_win_surfs"
    case 11 => "afn_network"
    case 12 => "ctm_network"
    case 13 => "number_ctm"
    case 14 => "afn_zone_nodes"
    case 15 => "afn_zon_nod_nums"
    case 16 => "zone_control"
    case 17 => "CFD_contaminants"
    case 18 => "CFD_domain_files"
    case 19 => "MRT_sensor_names"
    case 20 => "tdfa_file"
    case 21 => "tdfa_timestep"
    case 22 => "tdfa_startday"
    case 23 => "tdfa_endday"
    case 24 => "tdfa_entities"
    case 25 => "uncertainties_file"
    case 26 => "number_presets"
    case 27 => "weather_file"
    case 28 => "QA_report"
    case 29 => "total_floor_area"
    case 30 => "total_volume"
    case 31 => "zone_volumes"
    case 32 => "FMI_config_file"
    case 33 => "FMU_names"
    case 34 => "number_toilets"
    case 35 => "number_urinals"
    case 36 => "number_showers"
    case 37 => "number_printers"
    case 38 => "number_photocopy"
    case 39 => "is_building"
    case 40 => "plant_network"
    case 41 => "plant_components"
    case 42 => "plant_comp_names"
    case _ => ""
  }

  /** For each identifier, the indices of the outputs its extraction reads. */
  const NEEDS: seq<seq<nat>> := [
    [], [], [1, 18], [16], [], [1], [1],
    [1], [], [], [1], [], [], [12],
    [11], [11, 14, 1], [], [1, 18], [1], [1, 6],
    [], [20], [20], [20], [20], [], [],
    [], [], [28], [28], [28], [], [32],
    [1], [1], [1], [1], [1], [],
    [], [40], [40]]

  // indices the scanner refers to by name
  const MODEL_NAME := 0
  const NUMBER_ZONES := 1
  const CFD_DOMAINS := 2
  const ZONE_SETPOINTS := 3
  const MODEL_DESCRIPTION := 4
  const ZONE_NAMES := 5
  const MRT_SENSORS := 6
  const ZONE_FLOOR_SURFS := 7
  const RAD_VIEWPOINTS := 8
  const RAD_SCENE := 9
  const ZONE_WIN_SURFS := 10
  const AFN_NETWORK := 11
  const CTM_NETWORK := 12
  const NUMBER_CTM := 13
  const AFN_ZONE_NODES := 14
  const AFN_ZON_NOD_NUMS := 15
  const ZONE_CONTROL := 16
  const CFD_CONTAMINANTS := 17
  const CFD_DOMAIN_FILES := 18
  const MRT_SENSOR_NAMES := 19
  const TDFA_FILE := 20
  const TDFA_TIMESTEP := 21
  const TDFA_STARTDAY := 22
  const TDFA_ENDDAY := 23
  const TDFA_ENTITIES := 24
  const UNCERTAINTIES_FILE := 25
  const NUMBER_PRESETS := 26
  const WEATHER_FILE := 27
  const QA_REPORT := 28
  const TOTAL_FLOOR_AREA := 29
  const TOTAL_VOLUME := 30
  const ZONE_VOLUMES := 31
  const FMI_CONFIG_FILE := 32
  const FMU_NAMES := 33
  const NUMBER_TOILETS := 34
  const NUMBER_URINALS := 35
  const NUMBER_SHOWERS := 36
  const NUMBER_PRINTERS := 37
  const NUMBER_PHOTOCOPY := 38
  const IS_BUILDING := 39
  const PLANT_NETWORK := 40
  const PLANT_COMPONENTS := 41
  const PLANT_COMP_NAMES := 42

  /** The two tables line up and every prerequisite is an identifier index. */
  predicate TablesWellFormed() {
    && |NEEDS| == COUNT
    && forall i, k :: 0 <= i < COUNT && 0 <= k < |NEEDS[i]| ==> NEEDS[i][k] < COUNT
  }

  lemma TablesShape()
    ensures TablesWellFormed()
  {
  }

  /** The prerequisite table is closed: what a prerequisite needs is needed directly too, so
      raising the flags of an identifier and of its listed needs raises every flag its
      extraction depends on. */
  lemma NeedsClosed()
    ensures forall i, j, k :: 0 <= i < COUNT && j in NEEDS[i] && 0 <= j < COUNT && k in NEEDS[j] ==> k in NEEDS[i]
  {
  }
}
